/**
 The block and inode layer of kernel/fs.c, and the inode branch of filewrite in kernel/file.c.
 Buffers are changed in place and logged; the log itself is the subject of LogProtocol and Log.
 */
module Fs {
  import opened Blocks
  import opened FsState
  import LogDisk
  import LogProtocol
  import opened Sets

  datatype Option<T> = None | Some(value: T)

  /** A system call's result, or a panic. */
  datatype Outcome = Ret(n: int) | Panic

  const UINT := 0x1_0000_0000
  const CHUNK := 3072     // ((MAXOPBLOCKS-1-1-2) / 2) * BSIZE

  function Min(a: nat, b: nat): nat { if a < b then a else b }

  /** Every block of file i below its size is mapped. */
  ghost predicate NoHoles(s: State, i: nat)
    requires Shape(s) && i < |s.ino|
  {
    forall bn: nat :: bn < MAXFILE && bn * BSIZE < s.ino[i].size ==> AddrAt(s, i, SlotOf(bn)) != 0
  }

  /** Every block of file i that holds some of the bytes off to off + n is mapped. */
  ghost predicate Backed(s: State, i: nat, off: nat, n: nat)
    requires Shape(s) && i < |s.ino|
  {
    forall bn: nat :: off / BSIZE <= bn < BlocksTo(off, n) && bn < MAXFILE && bn * BSIZE < s.ino[i].size ==>
        AddrAt(s, i, SlotOf(bn)) != 0
  }

  lemma HoleFreeBacked(s: State, i: nat, off: nat, n: nat)
    requires Shape(s) && i < |s.ino| && (NoHoles(s, i) || MappedIn(s, i, off / BSIZE, BlocksTo(off, n)))
    ensures Backed(s, i, off, n)
  {
    hide AddrAt;
  }

  lemma NoBit(k: nat)
    requires k < 8
    ensures !BitOf(0, k)
  {
  }

  lemma BitPosition(l: Layout, b: nat, bi: nat)
    requires LayoutOk(l) && b % BPB == 0 && bi < BPB && b + bi < l.size
    ensures BitmapBlock(l, b) == BitmapBlock(l, b + bi) < l.datastart && (b + bi) % BPB == bi
  {
  }

  class FileSys {
    const lay: Layout
    var blk: seq<Block>
    var ino: seq<Inode>
    var din: seq<Inode>
    var logged: set<nat>
    ghost var owner: map<nat, Slot>

    ghost function Abs(): State
      reads this
    {
      State(lay, blk, ino, din, logged, owner)
    }

    ghost predicate Valid()
      reads this
    {
      Inv(Abs())
    }

    /** A disk as mkfs leaves it, with no files: only the blocks below the data area are marked. */
    constructor (l: Layout)
      requires LayoutOk(l)
      ensures Valid() && lay == l && logged == {} && |ino| == l.ninodes
      ensures forall i: nat :: i < |ino| ==> ino[i].size == 0 && NoHoles(Abs(), i)
      ensures forall b: nat :: b < l.size ==> (Bit(Abs(), b) <==> b < l.datastart)
    {
      hide BitOf, SetTo;
      lay := l;
      blk := seq(l.size, _ => Zeros());
      ino := seq(l.ninodes, _ => Inode(seq(NDIRECT + 1, _ => 0), 0));
      din := seq(l.ninodes, _ => Inode(seq(NDIRECT + 1, _ => 0), 0));
      logged := {};
      owner := map[];
      new;
      forall c: nat | c < l.size ensures !Bit(Abs(), c) { NoBit(c % BPB % 8); }
      var b := 0;
      while b < l.datastart
        invariant 0 <= b <= l.datastart && |blk| == l.size && logged == {} && owner == map[]
        invariant ino == din == seq(l.ninodes, _ => Inode(seq(NDIRECT + 1, _ => 0), 0))
        invariant forall c: nat :: c < l.size ==> (Bit(Abs(), c) <==> c < b)
      {
        ghost var s := Abs();
        var bb := BitmapBlock(l, b);
        blk := blk[bb := blk[bb][b % BPB / 8 := SetTo(blk[bb][b % BPB / 8], b % BPB % 8, true)]];
        assert Abs() == Mark(s, b, true);
        forall c: nat | c < l.size ensures Bit(Abs(), c) <==> c < b + 1 { MarkBit(s, b, true, c); }
        b := b + 1;
      }
    }

    method Bzero(bno: nat)
      requires bno < |blk|
      modifies `blk, `logged
      ensures blk == old(blk)[bno := Zeros()] && logged == old(logged) + {bno}
    {
      blk := blk[bno := seq(BSIZE, _ => 0)];
      logged := logged + {bno};
    }

    /** The lowest free block, marked and zeroed; None is the out-of-blocks panic. */
    method Balloc() returns (r: Option<nat>)
      requires LayoutOk(lay) && |blk| == lay.size
      modifies `blk, `logged
      ensures r.None? ==> Abs() == old(Abs()) && forall b: nat :: b < lay.size ==> Bit(Abs(), b)
      ensures r.Some? ==> r.value < lay.size && !Bit(old(Abs()), r.value) && Abs() == Taken(old(Abs()), r.value)
      ensures r.Some? ==> forall c: nat :: c < r.value ==> Bit(old(Abs()), c)
    {
      hide Bit;
      ghost var s := Abs();
      var b := 0;
      while b < lay.size
        invariant b % BPB == 0 && blk == old(blk) && logged == old(logged)
        invariant forall c: nat :: c < b && c < lay.size ==> Bit(s, c)
      {
        r := TakeFrom(b);
        if r.Some? { return; }
        b := b + BPB;
      }
      return None;
    }

    /** The inner loop of balloc: the first free block among those of one bitmap block. */
    method TakeFrom(b: nat) returns (r: Option<nat>)
      requires LayoutOk(lay) && |blk| == lay.size && b % BPB == 0 && b < lay.size
      modifies `blk, `logged
      ensures r.None? ==> Abs() == old(Abs()) && forall c: nat :: b <= c < b + BPB && c < lay.size ==> Bit(Abs(), c)
      ensures r.Some? ==> b <= r.value < lay.size && !Bit(old(Abs()), r.value) && Abs() == Taken(old(Abs()), r.value)
      ensures r.Some? ==> forall c: nat :: b <= c < r.value ==> Bit(old(Abs()), c)
    {
      hide BitOf, SetTo;
      ghost var s := Abs();
      var bi := 0;
      while bi < BPB && b + bi < lay.size
        invariant 0 <= bi <= BPB && blk == old(blk) && logged == old(logged)
        invariant forall c: nat :: b <= c < b + bi && c < lay.size ==> Bit(s, c)
      {
        BitPosition(lay, b, bi);
        var bb := BitmapBlock(lay, b);
        assert BitOf(blk[bb][bi / 8], bi % 8) == Bit(s, b + bi);
        if !BitOf(blk[bb][bi / 8], bi % 8) {
          blk := blk[bb := blk[bb][bi / 8 := SetTo(blk[bb][bi / 8], bi % 8, true)]];
          logged := logged + {bb};
          Bzero(b + bi);
          return Some(b + bi);
        }
        bi := bi + 1;
      }
      return None;
    }

    /** False is the freeing-free-block panic. */
    method Bfree(b: nat) returns (ok: bool)
      requires LayoutOk(lay) && |blk| == lay.size && b < lay.size
      modifies `blk, `logged
      ensures ok == Bit(old(Abs()), b)
      ensures Abs() == if ok then Freed(old(Abs()), b) else old(Abs())
    {
      hide BitOf, SetTo;
      var bb := BitmapBlock(lay, b);
      var bi := b % BPB;
      ok := BitOf(blk[bb][bi / 8], bi % 8);
      if ok {
        blk := blk[bb := blk[bb][bi / 8 := SetTo(blk[bb][bi / 8], bi % 8, false)]];
        logged := logged + {bb};
      }
    }
  
    /** Fill slot k of inode i, if it is empty, with a new block. */
    method Fill(i: nat, k: nat, ghost lo: nat, ghost hi: nat) returns (r: Option<nat>)
      requires Valid() && i < |ino| && k < SLOTS && (k == NDIRECT || Between(k, lo, hi))
      requires AddrAt(Abs(), i, k) == 0 && (k > NDIRECT ==> ino[i].addrs[NDIRECT] != 0)
      modifies this
      ensures Changed(old(Abs()), Abs(), i, 0, [], lo, hi)
      ensures r.Some? ==> r.value != 0 && AddrAt(Abs(), i, k) == r.value
                          && (k <= NDIRECT ==> ino[i].addrs[k] == r.value)
      ensures r.Some? ==> forall k' :: NDIRECT < k' < SLOTS && k' != k ==>
                          AddrAt(Abs(), i, k') == old(AddrAt(Abs(), i, k'))
      ensures r.None? ==> Abs() == old(Abs()) && forall b: nat :: b < lay.size ==> Bit(Abs(), b)
    {
      hide Changed, BitsOk, Held, Owned, SizesOk, AddrAt, Bit, Taken, PutWord;
      ghost var s := Abs();
      r := Balloc();
      if r.None? {
        Unchanged(s, i, 0, lo, hi);
        return;
      }
      var b := r.value;
      ghost var t := Abs();
      FreeIsData(s, b);
      TakenFrame(s, b);
      if k <= NDIRECT {
        ino := ino[i := ino[i].(addrs := ino[i].addrs[k := b])];
      } else {
        var x := ino[i].addrs[NDIRECT];
        blk := blk[x := PutWord(blk[x], k - NDIRECT - 1, b)];
        logged := logged + {x};
      }
      owner := owner[b := Slot(i, k)];
      assert Abs() == Attached(s, i, k, b);
      AttachChanged(s, i, k, b, 0, lo, hi);
      AttachedAddr(s, i, k, b, i, k);
      forall k' | NDIRECT < k' < SLOTS && k' != k ensures AddrAt(Abs(), i, k') == AddrAt(s, i, k') {
        AttachedAddr(s, i, k, b, i, k');
      }
    }
  
    /** The block of file i that holds its bn-th BSIZE bytes, allocated if need be. */
    method Bmap(i: nat, bn: nat) returns (r: Option<nat>)
      requires Valid() && i < |ino|
      modifies this
      ensures Changed(old(Abs()), Abs(), i, 0, [], bn, bn + 1)
      ensures r.Some? ==> IsBlock(Abs(), i, bn, r.value)
      ensures bn >= MAXFILE ==> r.None? && Abs() == old(Abs())
      ensures bn < MAXFILE && old(AddrAt(Abs(), i, SlotOf(bn))) != 0 ==> r.Some? && Abs() == old(Abs())
      ensures bn < MAXFILE && r.None? ==> forall b: nat :: b < lay.size ==> Bit(Abs(), b)
    {
      hide Changed, BitsOk, Held, Owned, SizesOk, Bit, Word;
      ghost var s := Abs();
      Unchanged(s, i, 0, bn, bn + 1);
      if bn < NDIRECT {
        if ino[i].addrs[bn] == 0 {
          r := Fill(i, bn, bn, bn + 1);
          ChangedInv(s, Abs(), i, bn);
          return;
        }
        return Some(ino[i].addrs[bn]);
      }
      var n := bn - NDIRECT;
      if n < NINDIRECT {
        if ino[i].addrs[NDIRECT] == 0 {
          r := Fill(i, NDIRECT, bn, bn + 1);
          ChangedInv(s, Abs(), i, bn);
          if r.None? { return; }
        }
        ghost var t := Abs();
        IndirectOwned(t, i);
        var addr := Word(blk[ino[i].addrs[NDIRECT]], n);
        if addr == 0 {
          r := Fill(i, bn + 1, bn, bn + 1);
          ChangedInv(t, Abs(), i, bn);
          ghost var none: seq<Byte> := [];
          ChangedTwice(s, t, Abs(), i, 0, none, none, bn, bn + 1, bn, bn + 1);
          assert none + none == none;
          return;
        }
        return Some(addr);
      }
      return None;
    }
  
    method Iupdate(i: nat)
      requires i < |ino| && i < |din|
      modifies `din, `logged
      ensures din == old(din)[i := ino[i]] && logged == old(logged) + {InodeBlock(lay, i)}
    {
      din := din[i := ino[i]];
      logged := logged + {InodeBlock(lay, i)};
    }

    /** Free every block of file i. The freeing-free-block panic cannot happen. */
    method Itrunc(i: nat)
      requires Valid() && i < |ino|
      modifies this
      ensures Truncated(old(Abs()), Abs(), i) && ino[i].size == 0
    {
      hide Cut, BitsOk, Held, Owned, SizesOk, Bit, Freed, Word, Truncated;
      ghost var s := Abs();
      CutNothing(s, i);
      var k := 0;
      while k < NDIRECT
        invariant 0 <= k <= NDIRECT && Cut(s, Abs(), i, k, 0, false)
      {
        ghost var t := Abs();
        CutShape(s, t, i, k, 0, false);
        if ino[i].addrs[k] != 0 {
          CutDirect(s, t, i, k);
          FreedFrame(t, ino[i].addrs[k]);
          var ok := Bfree(ino[i].addrs[k]);
          assert ok;
          owner := owner - {ino[i].addrs[k]};
          ino := ino[i := ino[i].(addrs := ino[i].addrs[k := 0])];
          assert Abs() == Detached(t, i, k);
        } else {
          CutDirectEmpty(s, t, i, k);
        }
        k := k + 1;
      }
      CutShape(s, Abs(), i, NDIRECT, 0, false);
      FreeIndirect(i, s);
      CutShape(s, Abs(), i, NDIRECT, NINDIRECT, true);
      ghost var t := Abs();
      ino := ino[i := ino[i].(size := 0)];
      Iupdate(i);
      assert Abs() == Updated(t, i, 0);
      TruncEnds(s, t, i);
    }

    method FreeIndirect(i: nat, ghost s: State)
      requires i < |ino| && Cut(s, Abs(), i, NDIRECT, 0, false)
      modifies `blk, `ino, `logged, `owner
      ensures Cut(s, Abs(), i, NDIRECT, NINDIRECT, true)
    {
      hide Cut, BitsOk, Held, Owned, SizesOk, Bit, Freed, Word, Truncated;
      CutShape(s, Abs(), i, NDIRECT, 0, false);
      if ino[i].addrs[NDIRECT] == 0 {
        CutNoIndirect(s, Abs(), i);
        return;
      }
      var a := blk[ino[i].addrs[NDIRECT]];
      var x := ino[i].addrs[NDIRECT];
      var j := 0;
      while j < NINDIRECT
        invariant 0 <= j <= NINDIRECT && Cut(s, Abs(), i, NDIRECT, j, false) && i < |ino|
        invariant |ino[i].addrs| == NDIRECT + 1 && ino[i].addrs[NDIRECT] == x < |blk| && blk[x] == a
      {
        ghost var t := Abs();
        CutShape(s, t, i, NDIRECT, j, false);
        assert AddrAt(t, i, NDIRECT + 1 + j) == Word(a, j);
        if Word(a, j) != 0 {
          CutEntry(s, t, i, j);
          IndirectsAre(t, i, j);
          FreedFrame(t, Word(a, j));
          FreedBlocks(t, Word(a, j), x);
          var ok := Bfree(Word(a, j));
          assert ok;
          owner := owner - {Word(a, j)};
          assert Abs() == EntryFreed(t, Word(a, j));
        } else {
          CutEntryEmpty(s, t, i, j);
        }
        j := j + 1;
      }
      ghost var t := Abs();
      CutShape(s, t, i, NDIRECT, NINDIRECT, false);
      CutIndirect(s, t, i);
      FreedFrame(t, x);
      var ok := Bfree(x);
      assert ok;
      owner := owner - {x};
      ino := ino[i := ino[i].(addrs := ino[i].addrs[NDIRECT := 0])];
      assert Abs() == Detached(t, i, NDIRECT);
    }
  
    /** bmap the block at offset o and take m bytes of it. */
    method ReadChunk(i: nat, o: nat, m: nat) returns (r: Option<seq<Byte>>)
      requires Valid() && i < |ino| && o % BSIZE + m <= BSIZE
      modifies this
      ensures |ino| == old(|ino|) && Changed(old(Abs()), Abs(), i, 0, [], o / BSIZE, o / BSIZE + 1)
      ensures r.Some? ==> |r.value| == m && o + m <= MAXFILE * BSIZE && old(Bytes(Abs(), i, o, r.value))
      ensures o / BSIZE < MAXFILE && old(AddrAt(Abs(), i, SlotOf(o / BSIZE))) != 0 ==> r.Some? && Abs() == old(Abs())
    {
      hide Changed, Inv, InvBut, AddrAt, ByteAt, IsBlock;
      ghost var s := Abs();
      var bn := o / BSIZE;
      var a := Bmap(i, bn);
      ChangedFacts(s, Abs(), i, 0, [], bn, bn + 1);
      if a.None? { return None; }
      BlockBounds(Abs(), i, bn, a.value);
      var got := blk[a.value][o % BSIZE..o % BSIZE + m];
      forall q: nat | q < m ensures ByteAt(s, i, o + q) == got[q] {
        BlockByte(Abs(), i, bn, a.value, o % BSIZE + q);
        SameByte(s, Abs(), i, bn, bn + 1, o + q);
      }
      return Some(got);
    }

    /**
     Read n bytes at off. The caller's buffer is mapped for limit bytes; a copy that reaches past that
     fails. Blocks of holes are allocated on the way, so the state may grow, but no file changes.
     */
    method Readi(i: nat, off: nat, n: nat, limit: nat) returns (r: Outcome, data: seq<Byte>)
      requires Valid() && i < |ino| && off < UINT && n < UINT
      modifies this
      ensures Valid() && |ino| == old(|ino|) && (forall j: nat :: j < |ino| ==> File(Abs(), j) == old(File(Abs(), j)))
      ensures AllLogged(old(Abs()), Abs())
      ensures old(Backed(Abs(), i, off, n)) ==> Abs() == old(Abs()) && !r.Panic?
      ensures off > old(ino[i].size) || off + n >= UINT ==> r == Ret(0) && data == [] && Abs() == old(Abs())
      ensures !(off > old(ino[i].size) || off + n >= UINT) && !r.Panic? ==>
                var m := Min(n, old(ino[i].size) - off);
                if m <= limit then r == Ret(m) && data == old(File(Abs(), i))[off..off + m] else r == Ret(-1)
    {
      hide Changed, Inv, InvBut, Backed, File, AddrAt, Bytes, BlocksTo, AllLogged;
      ghost var s := Abs();
      InvShape(s);
      NothingLogged(s);
      data := [];
      if off > ino[i].size || off + n >= UINT { return Ret(0), []; }
      var cnt := if off + n > ino[i].size then ino[i].size - off else n;
      var tot := 0;
      ghost var lo := off / BSIZE;
      NoBytes(s, i, off);
      while tot < cnt
        invariant 0 <= tot <= cnt && i < |ino| && |data| == tot <= limit
        invariant Changed(s, Abs(), i, 0, [], lo, BlocksTo(off, tot)) && Bytes(s, i, off, data)
        invariant tot < cnt ==> Aligned(off, tot)
        invariant Backed(s, i, off, n) ==> Abs() == s
      {
        ghost var t := Abs();
        ChangedFacts(s, t, i, 0, [], lo, BlocksTo(off, tot));
        var m := Min(cnt - tot, BSIZE - (off + tot) % BSIZE);
        ChunkEnd(off, tot, m, cnt);
        if Backed(s, i, off, n) { HoleFree(s, i, off, n, off + tot); }
        var got := ReadChunk(i, off + tot, m);
        MoreBlocks(s, t, Abs(), i, off, tot, m);
        if got.None? || tot + m > limit {
          ChangedFiles(s, Abs(), i, lo, BlocksTo(off, tot + m));
          ChangedLogs(s, Abs(), i, 0, [], lo, BlocksTo(off, tot + m));
          return if got.None? then Panic else Ret(-1), [];
        }
        MoreBytes(s, t, i, off, data, got.value, lo, BlocksTo(off, tot));
        data := data + got.value;
        tot := tot + m;
      }
      ChangedFiles(s, Abs(), i, lo, BlocksTo(off, tot));
      ChangedLogs(s, Abs(), i, 0, [], lo, BlocksTo(off, tot));
      FileSlice(s, i, off, data);
      return Ret(tot), data;
    }
  
    /** bmap the block at offset o and, unless the copy fails, put d there and log it. */
    method WriteChunk(i: nat, o: nat, d: seq<Byte>, copies: bool) returns (r: Outcome)
      requires Valid() && i < |ino| && o % BSIZE + |d| <= BSIZE && o < MAXFILE * BSIZE
      modifies this
      ensures |ino| == old(|ino|) && r == (if r.Panic? then Panic else if copies then Ret(|d|) else Ret(-1))
      ensures Changed(old(Abs()), Abs(), i, o, if r == Ret(|d|) then d else [], o / BSIZE, o / BSIZE + 1)
      ensures r.Panic? ==> forall b: nat :: b < lay.size ==> Bit(Abs(), b)
      ensures !r.Panic? ==> AddrAt(Abs(), i, SlotOf(o / BSIZE)) != 0
    {
      hide Changed, Inv, InvBut, AddrAt, ByteAt;
      ghost var s := Abs();
      var bn := o / BSIZE;
      var a := Bmap(i, bn);
      ghost var t := Abs();
      ChangedFacts(s, t, i, 0, [], bn, bn + 1);
      AnyOffset(s, t, i, 0, o, bn, bn + 1);
      if a.None? { return Panic; }
      if !copies { return Ret(-1); }
      BlockBounds(t, i, bn, a.value);
      PokeChanged(t, i, bn, a.value, o % BSIZE, d);
      blk := blk[a.value := Over(blk[a.value], o % BSIZE, d)];
      logged := logged + {a.value};
      assert Abs() == Poked(t, a.value, o % BSIZE, d);
      ChangedFacts(t, Abs(), i, o, d, bn, bn + 1);
      StillMapped(t, Abs(), i, o, d, bn, SlotOf(bn));
      ghost var none: seq<Byte> := [];
      ChangedTwice(s, t, Abs(), i, o, none, d, bn, bn + 1, bn, bn + 1);
      assert none + d == d;
      return Ret(|d|);
    }

    /**
     Write src at off. The caller's buffer is mapped for limit bytes; a copy that reaches past that
     fails, and ends the write early.
     */
    method Writei(i: nat, src: seq<Byte>, off: nat, limit: nat) returns (r: Outcome)
      requires Valid() && i < |ino| && off < UINT && |src| < UINT
      modifies this
      ensures Valid() && |ino| == old(|ino|)
      ensures off > old(ino[i].size) || off + |src| > MAXFILE * BSIZE ==> r == Ret(-1) && Abs() == old(Abs())
      ensures !(off > old(ino[i].size) || off + |src| > MAXFILE * BSIZE) ==>
                match r
                case Panic => forall b: nat :: b < lay.size ==> Bit(Abs(), b)
                case Ret(n) => 0 <= n <= |src| && WriteDone(old(Abs()), Abs(), i, off, src, n)
                               && (|src| <= limit ==> n == |src|)
    {
      hide Changed, Inv, InvBut, File, AddrAt, BlocksTo, WriteDone, MappedIn;
      ghost var s := Abs();
      InvShape(s);
      if off > ino[i].size || off + |src| >= UINT { return Ret(-1); }
      if off + |src| > MAXFILE * BSIZE { return Ret(-1); }
      var tot := 0;
      ghost var lo := off / BSIZE;
      Unchanged(s, i, off, lo, lo);
      NoneMapped(s, i, off);
      assert src[..0] == [];
      while tot < |src|
        invariant 0 <= tot <= |src| && i < |ino| == |s.ino| && Shape(Abs())
        invariant Changed(s, Abs(), i, off, src[..tot], lo, BlocksTo(off, tot))
        invariant MappedIn(Abs(), i, lo, BlocksTo(off, tot))
        invariant tot < |src| ==> Aligned(off, tot)
      {
        ghost var t := Abs();
        ChangedFacts(s, t, i, off, src[..tot], lo, BlocksTo(off, tot));
        var m := Min(|src| - tot, BSIZE - (off + tot) % BSIZE);
        ChunkEnd(off, tot, m, |src|);
        var ret := WriteChunk(i, off + tot, src[tot..tot + m], tot + m <= limit);
        ChunkAdded(s, t, Abs(), i, off, src, tot, m, ret == Ret(m));
        if ret.Panic? { return Panic; }
        if ret != Ret(m) {
          MappedKept(t, Abs(), i, off, tot);
          BlocksToMono(off, tot + m, |src|);
          EndWrite(i, off, tot, src, s, BlocksTo(off, tot + m));
          return Ret(tot);
        }
        MoreMapped(t, Abs(), i, off, src[tot..tot + m], tot, m);
        tot := tot + m;
      }
      ChangedFacts(s, Abs(), i, off, src[..tot], lo, BlocksTo(off, tot));
      EndWrite(i, off, tot, src, s, BlocksTo(off, tot));
      return Ret(tot);
    }

    /** The new size, and iupdate. */
    method EndWrite(i: nat, off: nat, tot: nat, ghost src: seq<Byte>, ghost s: State, ghost hi: nat)
      requires i < |ino| && i < |din| && tot <= |src| && off + |src| <= MAXFILE * BSIZE && i < |s.ino|
      requires off <= s.ino[i].size
      requires Changed(s, Abs(), i, off, src[..tot], off / BSIZE, hi) && hi <= BlocksTo(off, |src|)
      requires MappedIn(Abs(), i, off / BSIZE, BlocksTo(off, tot))
      modifies this
      ensures WriteDone(s, Abs(), i, off, src, tot) && Valid() && |ino| == old(|ino|)
    {
      hide Changed, Inv, InvBut, File, AddrAt, BlocksTo, MappedIn;
      ghost var t := Abs();
      ChangedFacts(s, t, i, off, src[..tot], off / BSIZE, hi);
      var size := if off + tot > ino[i].size then off + tot else ino[i].size;
      ino := ino[i := ino[i].(size := size)];
      Iupdate(i);
      assert Abs() == Updated(t, i, size);
      WriteFinal(s, t, i, off, src, tot, hi, size);
    }
  
    /**
     Write n bytes of src at the file's offset, CHUNK bytes to a transaction. steps lists the states between
     transactions, rets what each writei returned, txs the blocks each logged; off' is the offset afterwards.
     */
    method FileWrite(i: nat, off: nat, src: seq<Byte>, n: int, limit: nat)
        returns (r: Outcome, off': nat, ghost txs: seq<set<nat>>, ghost steps: seq<State>, ghost rets: seq<Outcome>)
      requires Valid() && i < |ino| && off < UINT && |src| == (if n < 0 then 0 else n) && n < 0x8000_0000
      modifies this
      ensures Valid() && |ino| == old(|ino|) && |blk| == old(|blk|) && |din| == old(|din|)
      ensures r.Panic? ==> forall b: nat :: b < lay.size ==> Bit(Abs(), b)
      ensures Chain(steps, rets, i, off, src) && steps[0] == old(Abs()) && (!r.Panic? ==> steps[|rets|] == Abs())
      ensures |txs| == |rets| && forall t :: 0 <= t < |txs| ==> txs[t] == steps[t + 1].logged
      ensures !r.Panic? ==> r == Ret(if n >= 0 && AllFull(rets, src) && |rets| == Chunks(n) then n else -1)
      ensures forall t :: 0 <= t < |txs| ==> |txs[t]| <= 6 + (lay.size - 1) / BPB + 1
      ensures !r.Panic? ==> forall b: nat :: b < |blk| && blk[b] != old(blk[b]) ==> InSome(txs, b)
      ensures !r.Panic? ==> forall j: nat :: j < |din| && din[j] != old(din[j]) ==> InSome(txs, InodeBlock(lay, j))
      ensures !r.Panic? ==> FileWrote(old(Abs()), Abs(), i, off, src, off' - off)
      ensures !r.Panic? ==> r == Ret(if off' - off == n then n else -1)
      ensures !r.Panic? && 0 <= n <= limit && off <= old(ino[i].size) && off + n <= MAXFILE * BSIZE ==> r == Ret(n)
    {
      hide Inv, InvBut, File, WriteDone, NoHoles, FileWrote, Chain, AllFull, InSome, AllLogged;
      ghost var s := Abs();
      InvShape(s);
      ChainStart(s, i, off, src);
      txs, steps, rets := [], [s], [];
      off' := off;
      var k := 0;
      NothingWrote(s, i, off, src);
      while k < n
        invariant 0 <= k && (0 <= n ==> k <= n) && i < |ino| == |s.ino| && Valid() && off' == off + k && off' < UINT
        invariant FileWrote(s, Abs(), i, off, src, k)
        invariant Chain(steps, rets, i, off, src) && |steps| == |rets| + 1 && |txs| == |rets|
        invariant steps[0] == s && steps[|rets|] == Abs()
        invariant (forall t :: 0 <= t < |txs| ==> txs[t] == steps[t + 1].logged) && AllFull(rets, src)
        invariant if k < n then k == CHUNK * |rets| else n < 0 || |rets| == Chunks(n)
        invariant forall t :: 0 <= t < |txs| ==> |txs[t]| <= 6 + (lay.size - 1) / BPB + 1
        decreases n - k
      {
        var n1 := if n - k > CHUNK then CHUNK else n - k;
        ghost var v := Abs();
        logged := {};
        ghost var t := Abs();
        ForgetLog(s, v, i, off, src, k);
        if off <= s.ino[i].size { OffsetInside(s, t, i, off, src, k); }
        var ret := Writei(i, src[k..k + n1], off', if limit < k then 0 else limit - k);
        InvShape(Abs());
        if ret.Panic? { return Panic, off', txs, steps, rets; }
        assert ChunkResult(t, Abs(), i, off', src[k..k + n1], ret);
        ChainMore(steps, rets, Abs(), ret, i, off, src, k, n1);
        txs, steps, rets := txs + [logged], steps + [Abs()], rets + [ret];
        ChunkLogged(t, Abs(), i, off', src[k..k + n1], ret);
        WroteMore(s, t, Abs(), i, off, src, k, src[k..k + n1], ret);
        if ret.n > 0 { off' := off' + ret.n; }
        if ret.n != n1 { break; }
        k := k + ret.n;
      }
      r := Ret(if k == n then n else -1);
      ChainLogs(steps, rets, txs, i, off, src);
    }
  
    /** What has been written is read back. */
    method WriteThenRead(i: nat, src: seq<Byte>, off: nat) returns (w: Outcome, r: Outcome, data: seq<Byte>)
      requires Valid() && i < |ino| && off < UINT && |src| < UINT
      modifies this
      ensures w == Ret(|src|) ==> r == Ret(|src|) && data == src
    {
      hide Inv, InvBut, NoHoles, File, WriteDone, Backed;
      ghost var s := Abs();
      w := Writei(i, src, off, |src|);
      if w != Ret(|src|) { return w, Panic, []; }
      ghost var t := Abs();
      WroteBack(s, t, i, off, src);
      r, data := Readi(i, off, |src|, |src|);
    }
  }

  lemma WroteBack(s: State, t: State, i: nat, off: nat, src: seq<Byte>)
    requires WriteDone(s, t, i, off, src, |src|)
    ensures Shape(t) && i < |t.ino| && Backed(t, i, off, |src|) && off + |src| <= t.ino[i].size <= MAXFILE * BSIZE
    ensures File(t, i)[off..off + |src|] == src
  {
    hide BitsOk, Held, Owned, ByteAt, Touches, NoHoles, Backed, MappedIn;
    HoleFreeBacked(t, i, off, |src|);
    assert src[..|src|] == src;
    assert |File(t, i)| == t.ino[i].size;
  }

  /** File i of s with the first k bytes of src at off, other files as they were; k is 0 if off is past its end. */
  ghost predicate FileWrote(s: State, u: State, i: nat, off: nat, src: seq<Byte>, k: int) {
    && Inv(s) && Inv(u) && |u.ino| == |s.ino| && u.lay == s.lay && i < |s.ino| && 0 <= k <= |src|
    && (if off <= s.ino[i].size then File(u, i) == Spliced(File(s, i), off, src[..k])
        else k == 0 && File(u, i) == File(s, i))
    && (forall j: nat :: j < |s.ino| && j != i ==> File(u, j) == File(s, j))
  }

  lemma NothingWrote(s: State, i: nat, off: nat, src: seq<Byte>)
    requires Inv(s) && i < |s.ino|
    ensures FileWrote(s, s, i, off, src, 0)
  {
    hide BitsOk, Held, Owned, ByteAt;
    if off <= s.ino[i].size { assert Spliced(File(s, i), off, src[..0]) == File(s, i); }
  }

  /** Starting a transaction changes no file. */
  lemma ForgetLog(s: State, v: State, i: nat, off: nat, src: seq<Byte>, k: nat)
    requires FileWrote(s, v, i, off, src, k)
    ensures Inv(v.(logged := {})) && FileWrote(s, v.(logged := {}), i, off, src, k)
  {
    hide File, Inv;
    NoLog(v);
  }

  lemma NoLog(v: State)
    requires Inv(v)
    ensures Inv(v.(logged := {})) && forall j: nat :: j < |v.ino| ==> File(v.(logged := {}), j) == File(v, j)
  {
    hide BitOf, Word, BitsOk, Held, Owned;
    var t := v.(logged := {});
    assert Shape(t);
    forall j: nat, k: nat | j < |v.ino| && k < SLOTS ensures AddrAt(t, j, k) == AddrAt(v, j, k) {}
    SameAddrInv(v, t);
    forall j: nat | j < |v.ino| ensures File(t, j) == File(v, j) {
      forall o: nat | o < v.ino[j].size ensures ByteAt(t, j, o) == ByteAt(v, j, o) {}
    }
  }

  lemma OffsetInside(s: State, t: State, i: nat, off: nat, src: seq<Byte>, k: nat)
    requires FileWrote(s, t, i, off, src, k) && off <= s.ino[i].size
    ensures off + k <= t.ino[i].size
  {
    hide BitsOk, Held, Owned, ByteAt;
    assert |File(t, i)| == t.ino[i].size;
  }

  /** What Writei promises about one chunk. */
  ghost predicate ChunkResult(t: State, u: State, i: nat, off: nat, d: seq<Byte>, r: Outcome) {
    && r.Ret? && i < |t.ino|
    && (if off > t.ino[i].size || off + |d| > MAXFILE * BSIZE then r == Ret(-1) && u == t
        else 0 <= r.n <= |d| && WriteDone(t, u, i, off, d, r.n))
  }

  /** One transaction of filewrite logs at most 4 data blocks, the indirect block, the inode and the bitmap. */
  lemma ChunkLogged(t: State, u: State, i: nat, off: nat, d: seq<Byte>, r: Outcome)
    requires ChunkResult(t, u, i, off, d, r) && t.logged == {} && |d| <= CHUNK && Inv(t)
    ensures |u.logged| <= 6 + (t.lay.size - 1) / BPB + 1
  {
    hide BitsOk, Held, Owned, File, NoHoles, Touches;
    if r != Ret(-1) {
      var lo := off / BSIZE;
      var hi := BlocksTo(off, |d|);
      ChunkBlocks(off, |d|);
      TouchesCard(u, i, lo, hi);
      var all := Touches(u, i, lo, hi) + {InodeBlock(t.lay, i)};
      SubsetCard(u.logged, all);
    }
  }

  /** What one transaction of filewrite logs, on a file system with a single bitmap block. */
  ghost predicate IsChunk(blocks: set<nat>) {
    exists t, u, i, off, d, r ::
      && ChunkResult(t, u, i, off, d, r) && t.logged == {} && |d| <= CHUNK && Inv(t) && t.lay.size <= BPB
      && blocks == u.logged
  }

  /** Such a transaction logs at most 7 blocks. */
  lemma ChunkFits(blocks: set<nat>)
    requires IsChunk(blocks)
    ensures |blocks| <= 7
  {
    hide ChunkResult, Inv;
    var t, u, i, off, d, r :|
      ChunkResult(t, u, i, off, d, r) && t.logged == {} && |d| <= CHUNK && Inv(t) && t.lay.size <= BPB
          && blocks == u.logged;
    ChunkLogged(t, u, i, off, d, r);
  }

  /** The operations active at s are filewrite transactions, each at some point of its way. */
  ghost predicate OnlyChunks(s: LogProtocol.State) {
    forall a :: 0 <= a < |s.active| ==> PartOfChunk(LogProtocol.Touched(s.journal, s.active[a].id))
  }

  ghost predicate PartOfChunk(done: set<int>) {
    exists blocks: set<nat> :: IsChunk(blocks) && done <= blocks
  }

  /** Any number of filewrite calls at once, interleaved anyhow, never meet log_write's capacity panic. */
  lemma FileWritesNeverTooBig(l: LogDisk.Layout, quota: nat, run: seq<LogProtocol.State>, k: nat)
    requires l.size == LogDisk.LOGSIZE && LogProtocol.Run(l, quota, run) && k < |run| && run[k].active != []
    requires forall j :: 0 <= j < |run| ==> OnlyChunks(run[j])
    ensures !LogProtocol.TooBig(l, run[k])
  {
    hide IsChunk, PartOfChunk, LogProtocol.Touched, LogProtocol.Next;
    forall j | 0 <= j < |run| ensures LogProtocol.Narrow(run[j], 7) {
      assert OnlyChunks(run[j]);
      forall a | 0 <= a < |run[j].active| ensures |LogProtocol.Touched(run[j].journal, run[j].active[a].id)| <= 7 {
        PartFits(LogProtocol.Touched(run[j].journal, run[j].active[a].id));
      }
    }
    LogProtocol.NoPanicByBlocks(l, quota, 7, run, k);
  }

  lemma PartFits(done: set<int>)
    requires PartOfChunk(done)
    ensures |done| <= 7
  {
    hide IsChunk;
    var blocks: set<nat> :| IsChunk(blocks) && done <= blocks;
    ChunkFits(blocks);
    SubsetCard(done, blocks);
  }

  // ---- the transactions of one filewrite ----

  /** How many transactions n bytes take. */
  function Chunks(n: nat): nat { (n + CHUNK - 1) / CHUNK }

  /** The bytes of transaction t. */
  function ChunkOf(src: seq<Byte>, t: nat): seq<Byte>
    requires CHUNK * t <= |src|
  {
    src[CHUNK * t..Min(CHUNK * (t + 1), |src|)]
  }

  /** Transaction t wrote all its bytes. */
  ghost predicate Full(rets: seq<Outcome>, src: seq<Byte>, t: nat) {
    t < |rets| && CHUNK * t <= |src| && rets[t] == Ret(|ChunkOf(src, t)|)
  }

  ghost predicate AllFull(rets: seq<Outcome>, src: seq<Byte>) {
    forall t: nat :: t < |rets| ==> Full(rets, src, t)
  }

  /** Transaction t logs nothing but its own writei, of the next bytes of src, and starts with an empty log. */
  ghost predicate Transaction(steps: seq<State>, rets: seq<Outcome>, i: nat, off: nat, src: seq<Byte>, t: nat) {
    && t + 1 < |steps| && t < |rets| && CHUNK * t < |src|
    && ChunkResult(steps[t].(logged := {}), steps[t + 1], i, off + CHUNK * t, ChunkOf(src, t), rets[t])
    && (t + 1 < |rets| ==> Full(rets, src, t))
  }

  /** steps are the states between the transactions, each of which but the last wrote all its bytes. */
  ghost predicate Chain(steps: seq<State>, rets: seq<Outcome>, i: nat, off: nat, src: seq<Byte>) {
    |steps| == |rets| + 1 && forall t: nat :: t < |rets| ==> Transaction(steps, rets, i, off, src, t)
  }

  ghost predicate InSome(txs: seq<set<nat>>, b: nat) { exists t :: 0 <= t < |txs| && b in txs[t] }

  lemma ChainStart(s: State, i: nat, off: nat, src: seq<Byte>)
    ensures Chain([s], [], i, off, src) && AllFull([], src)
  {
  }

  lemma ChainMore(steps: seq<State>, rets: seq<Outcome>, u: State, ret: Outcome, i: nat, off: nat, src: seq<Byte>,
      k: nat, n1: nat)
    requires Chain(steps, rets, i, off, src) && AllFull(rets, src) && k == CHUNK * |rets| < |src|
    requires n1 == (if |src| - k > CHUNK then CHUNK else |src| - k)
    requires ChunkResult(steps[|rets|].(logged := {}), u, i, off + k, src[k..k + n1], ret)
    ensures Chain(steps + [u], rets + [ret], i, off, src)
    ensures AllFull(rets + [ret], src) <==> ret == Ret(n1)
    ensures k + n1 < |src| ==> k + n1 == CHUNK * (|rets| + 1)
    ensures k + n1 == |src| ==> |rets| + 1 == Chunks(|src|)
  {
    hide ChunkResult, Chunks, Full, AllFull;
    var steps', rets' := steps + [u], rets + [ret];
    ChunkCount(src, |rets|, n1);
    AllFullAt(rets, src);
    FullMore(rets, ret, src, n1);
    forall t: nat | t < |rets'| ensures Transaction(steps', rets', i, off, src, t) {
      if t < |rets| { assert Transaction(steps, rets, i, off, src, t); }
    }
  }

  lemma ChunkCount(src: seq<Byte>, m: nat, n1: nat)
    requires CHUNK * m < |src| && n1 == (if |src| - CHUNK * m > CHUNK then CHUNK else |src| - CHUNK * m)
    ensures ChunkOf(src, m) == src[CHUNK * m..CHUNK * m + n1] && |ChunkOf(src, m)| == n1
    ensures CHUNK * m + n1 < |src| ==> CHUNK * m + n1 == CHUNK * (m + 1)
    ensures CHUNK * m + n1 == |src| ==> m + 1 == Chunks(|src|)
  {
  }

  lemma AllFullAt(rets: seq<Outcome>, src: seq<Byte>)
    requires AllFull(rets, src)
    ensures forall t: nat :: t < |rets| ==> Full(rets, src, t)
  {
  }

  lemma FullMore(rets: seq<Outcome>, ret: Outcome, src: seq<Byte>, n1: nat)
    requires AllFull(rets, src) && CHUNK * |rets| < |src| && |ChunkOf(src, |rets|)| == n1
    ensures forall t: nat :: t < |rets| ==> Full(rets + [ret], src, t)
    ensures AllFull(rets + [ret], src) <==> ret == Ret(n1)
  {
    hide ChunkOf;
    forall t: nat | t < |rets| ensures Full(rets + [ret], src, t) { assert Full(rets, src, t); }
    assert Full(rets + [ret], src, |rets|) <==> ret == Ret(n1);
  }

  /** Whatever a filewrite changed was logged by one of its transactions. */
  lemma {:induction false} ChainLogs(steps: seq<State>, rets: seq<Outcome>, txs: seq<set<nat>>, i: nat, off: nat,
      src: seq<Byte>)
    requires Chain(steps, rets, i, off, src) && |txs| == |rets|
    requires forall t :: 0 <= t < |txs| ==> txs[t] == steps[t + 1].logged
    ensures var s, u := steps[0], steps[|rets|];
            && u.lay == s.lay && |u.blk| == |s.blk| && |u.din| == |s.din|
            && (forall b: nat :: b < |s.blk| && u.blk[b] != s.blk[b] ==> InSome(txs, b))
            && (forall j: nat :: j < |s.din| && u.din[j] != s.din[j] ==> InSome(txs, InodeBlock(s.lay, j)))
    decreases |rets|
  {
    hide ChunkResult, InSome;
    if rets != [] {
      var m := |rets| - 1;
      ChainLess(steps, rets, i, off, src);
      ChainLogs(steps[..m + 1], rets[..m], txs[..m], i, off, src);
      assert Transaction(steps, rets, i, off, src, m);
      ChunkLogs(steps[m], steps[m + 1], i, off + CHUNK * m, ChunkOf(src, m), rets[m]);
      LoggedOnce(steps[0], steps[m], steps[m + 1], txs);
    }
  }

  lemma ChainLess(steps: seq<State>, rets: seq<Outcome>, i: nat, off: nat, src: seq<Byte>)
    requires Chain(steps, rets, i, off, src) && rets != []
    ensures Chain(steps[..|rets|], rets[..|rets| - 1], i, off, src)
  {
    hide ChunkResult;
    var steps', rets' := steps[..|rets|], rets[..|rets| - 1];
    forall t: nat | t < |rets'| ensures Transaction(steps', rets', i, off, src, t) {
      assert Transaction(steps, rets, i, off, src, t);
      if t + 1 < |rets'| { assert Full(rets', src, t); }
    }
  }

  lemma ChunkLogs(a: State, b: State, i: nat, off: nat, d: seq<Byte>, r: Outcome)
    requires ChunkResult(a.(logged := {}), b, i, off, d, r)
    ensures AllLogged(a.(logged := {}), b)
  {
    hide Inv, File, NoHoles, Touches;
  }

  lemma LoggedOnce(s: State, a: State, b: State, txs: seq<set<nat>>)
    requires txs != [] && AllLogged(a.(logged := {}), b) && txs[|txs| - 1] == b.logged
    requires a.lay == s.lay && |a.blk| == |s.blk| && |a.din| == |s.din|
    requires forall x: nat :: x < |s.blk| && a.blk[x] != s.blk[x] ==> InSome(txs[..|txs| - 1], x)
    requires forall j: nat :: j < |s.din| && a.din[j] != s.din[j] ==> InSome(txs[..|txs| - 1], InodeBlock(s.lay, j))
    ensures b.lay == s.lay && |b.blk| == |s.blk| && |b.din| == |s.din|
    ensures forall x: nat :: x < |s.blk| && b.blk[x] != s.blk[x] ==> InSome(txs, x)
    ensures forall j: nat :: j < |s.din| && b.din[j] != s.din[j] ==> InSome(txs, InodeBlock(s.lay, j))
  {
    hide InSome;
    forall x: nat | x < |s.blk| && b.blk[x] != s.blk[x] ensures InSome(txs, x) { SomeMore(txs, x); }
    forall j: nat | j < |s.din| && b.din[j] != s.din[j] ensures InSome(txs, InodeBlock(s.lay, j)) {
      SomeMore(txs, InodeBlock(s.lay, j));
    }
  }

  lemma SomeMore(txs: seq<set<nat>>, x: nat)
    requires txs != []
    ensures x in txs[|txs| - 1] || InSome(txs[..|txs| - 1], x) ==> InSome(txs, x)
  {
    if InSome(txs[..|txs| - 1], x) {
      var t :| 0 <= t < |txs| - 1 && x in txs[..|txs| - 1][t];
      assert x in txs[t];
    } else if x in txs[|txs| - 1] {
      assert 0 <= |txs| - 1 < |txs|;
    }
  }

  lemma ChunkBlocks(off: nat, n: nat)
    requires n <= CHUNK && off + n <= MAXFILE * BSIZE
    ensures off / BSIZE <= BlocksTo(off, n) <= off / BSIZE + 4 && BlocksTo(off, n) <= MAXFILE
  {
  }

  lemma WroteMore(s: State, t: State, u: State, i: nat, off: nat, src: seq<Byte>, k: nat, d: seq<Byte>, r: Outcome)
    requires FileWrote(s, t, i, off, src, k) && k + |d| <= |src| && d == src[k..k + |d|]
    requires ChunkResult(t, u, i, off + k, d, r)
    ensures FileWrote(s, u, i, off, src, if r.n > 0 then k + r.n else k)
  {
    hide BitsOk, Held, Owned, File, NoHoles, Touches, Inv, Spliced;
    InvShape(s);
    if r != Ret(-1) {
      OffsetBefore(s, t, i, off, src, k);
      SplicedTwice(File(s, i), off, src[..k], d[..r.n]);
      assert src[..k] + d[..r.n] == src[..k + r.n];
    }
  }

  lemma OffsetBefore(s: State, t: State, i: nat, off: nat, src: seq<Byte>, k: nat)
    requires FileWrote(s, t, i, off, src, k) && off + k <= t.ino[i].size
    ensures off <= s.ino[i].size <= MAXFILE * BSIZE && |File(s, i)| == s.ino[i].size
  {
    hide BitsOk, Held, Owned, ByteAt;
    assert |File(t, i)| == t.ino[i].size;
  }

  ghost predicate MappedIn(s: State, i: nat, lo: nat, hi: nat)
    requires Shape(s) && i < |s.ino|
  {
    forall bn: nat :: lo <= bn < hi && bn < MAXFILE ==> AddrAt(s, i, SlotOf(bn)) != 0
  }

  /**
   The state after n bytes of src were written at off: the bytes are there, the file has grown if they
   reach past its end, the inode on disk is up to date, every other file is as it was, only blocks of the
   file, the bitmap and the inode were logged, and whatever changed was.
   */
  ghost predicate WriteDone(s: State, u: State, i: nat, off: nat, src: seq<Byte>, n: int) {
    && Inv(s) && Inv(u) && |u.ino| == |s.ino| && u.lay == s.lay && i < |s.ino| && 0 <= n <= |src|
    && off <= s.ino[i].size
    && File(u, i) == Spliced(File(s, i), off, src[..n])
    && (forall j: nat :: j < |s.ino| && j != i ==> File(u, j) == File(s, j))
    && u.din == s.din[i := u.ino[i]]
    && (NoHoles(s, i) ==> NoHoles(u, i)) && MappedIn(u, i, off / BSIZE, BlocksTo(off, n))
    && u.logged <= s.logged + Touches(u, i, off / BSIZE, BlocksTo(off, |src|)) + {InodeBlock(s.lay, i)}
    && AllLogged(s, u)
  }

  lemma NoneMapped(s: State, i: nat, off: nat)
    requires Shape(s) && i < |s.ino|
    ensures MappedIn(s, i, off / BSIZE, BlocksTo(off, 0)) && BlocksTo(off, 0) == off / BSIZE
  {
  }

  lemma StillMapped(s: State, t: State, i: nat, off: nat, d: seq<Byte>, bn: nat, k: nat)
    requires Changed(s, t, i, off, d, bn, bn + 1) && Shape(s) && Shape(t) && i < |t.ino| && i < |s.ino| && k < SLOTS
    requires AddrAt(s, i, k) != 0
    ensures AddrAt(t, i, k) != 0
  {
    hide AddrAt, Inv, Touches, Written;
  }

  lemma MoreMapped(t: State, u: State, i: nat, off: nat, d: seq<Byte>, tot: nat, m: nat)
    requires Shape(t) && Shape(u) && i < |t.ino| && i < |u.ino|
    requires Changed(t, u, i, off + tot, d, (off + tot) / BSIZE, (off + tot) / BSIZE + 1)
    requires MappedIn(t, i, off / BSIZE, BlocksTo(off, tot))
    requires AddrAtBlock(u, i, (off + tot) / BSIZE) && Aligned(off, tot)
    requires BlocksTo(off, tot + m) == (off + tot) / BSIZE + 1
    ensures MappedIn(u, i, off / BSIZE, BlocksTo(off, tot + m))
  {
    hide AddrAt, Changed;
    forall bn: nat | off / BSIZE <= bn < BlocksTo(off, tot + m) && bn < MAXFILE ensures AddrAt(u, i, SlotOf(bn)) != 0 {
      if bn != (off + tot) / BSIZE { StillMapped(t, u, i, off + tot, d, (off + tot) / BSIZE, SlotOf(bn)); }
    }
  }

  lemma MappedKept(t: State, u: State, i: nat, off: nat, tot: nat)
    requires Shape(t) && Shape(u) && i < |t.ino| && i < |u.ino|
    requires Changed(t, u, i, off + tot, [], (off + tot) / BSIZE, (off + tot) / BSIZE + 1)
    requires MappedIn(t, i, off / BSIZE, BlocksTo(off, tot))
    ensures MappedIn(u, i, off / BSIZE, BlocksTo(off, tot))
  {
    hide AddrAt, Changed;
    forall bn: nat | off / BSIZE <= bn < BlocksTo(off, tot) && bn < MAXFILE ensures AddrAt(u, i, SlotOf(bn)) != 0 {
      StillMapped(t, u, i, off + tot, [], (off + tot) / BSIZE, SlotOf(bn));
    }
  }

  lemma BlocksToMono(off: nat, m: nat, n: nat)
    requires m <= n
    ensures BlocksTo(off, m) <= BlocksTo(off, n)
  {
  }

  ghost predicate AddrAtBlock(u: State, i: nat, bn: nat)
    requires Shape(u) && i < |u.ino|
  {
    bn < MAXFILE && AddrAt(u, i, SlotOf(bn)) != 0
  }

  lemma ChunkAdded(s: State, t: State, u: State, i: nat, off: nat, src: seq<Byte>, tot: nat, m: nat, copied: bool)
    requires tot + m <= |src| && Changed(s, t, i, off, src[..tot], off / BSIZE, BlocksTo(off, tot))
    requires Changed(t, u, i, off + tot, if copied then src[tot..tot + m] else [],
                     (off + tot) / BSIZE, (off + tot) / BSIZE + 1)
    requires Aligned(off, tot) && BlocksTo(off, tot + m) == (off + tot) / BSIZE + 1
    ensures Changed(s, u, i, off, if copied then src[..tot + m] else src[..tot], off / BSIZE, BlocksTo(off, tot + m))
    ensures Inv(u) && Shape(u) && |u.ino| == |s.ino|
  {
    hide Changed;
    var e := if copied then src[tot..tot + m] else [];
    ChangedTwice(s, t, u, i, off, src[..tot], e, off / BSIZE, BlocksTo(off, tot), (off + tot) / BSIZE,
        (off + tot) / BSIZE + 1);
    assert src[..tot] + e == if copied then src[..tot + m] else src[..tot];
    ChangedFacts(s, u, i, off, src[..tot] + e, off / BSIZE, BlocksTo(off, tot + m));
  }

  lemma WriteFinal(s: State, t: State, i: nat, off: nat, src: seq<Byte>, tot: nat, hi: nat, size: nat)
    requires i < |s.ino| && off <= s.ino[i].size && tot <= |src| && off + |src| <= MAXFILE * BSIZE
    requires Changed(s, t, i, off, src[..tot], off / BSIZE, hi) && hi <= BlocksTo(off, |src|)
    requires Shape(t) && i < |t.ino| && MappedIn(t, i, off / BSIZE, BlocksTo(off, tot))
    requires size == if off + tot > s.ino[i].size then off + tot else s.ino[i].size
    ensures WriteDone(s, Updated(t, i, size), i, off, src, tot)
  {
    hide Changed, BitsOk, Held, Owned, AddrAt, File, BlocksTo, MappedIn, Touches, NoHoles, Updated, AllLogged;
    var u := Updated(t, i, size);
    var d := src[..tot];
    ChangedFacts(s, t, i, off, d, off / BSIZE, hi);
    ChangedWritten(s, t, i, off, d, off / BSIZE, hi);
    WriteEnds(s, t, i, off, d, size);
    UpdatedFrame(t, i, size);
    if NoHoles(s, i) { HolesStayFilled(s, t, i, off, d, hi, size); }
    UpdatedMapped(t, i, size, off / BSIZE, BlocksTo(off, tot));
    ChangedWider(s, t, i, off, d, off / BSIZE, hi, BlocksTo(off, |src|));
    FinalLogged(s, t, i, off, d, off / BSIZE, BlocksTo(off, |src|), size);
    ChangedLogs(s, t, i, off, d, off / BSIZE, hi);
    UpdatedAllLogged(t, i, size);
    AllLoggedTwice(s, t, u);
  }

  lemma UpdatedMapped(t: State, i: nat, size: nat, lo: nat, hi: nat)
    requires Shape(t) && i < |t.ino| && MappedIn(t, i, lo, hi) && size <= MAXFILE * BSIZE && Inv(t)
    ensures Shape(Updated(t, i, size)) && MappedIn(Updated(t, i, size), i, lo, hi)
  {
    hide AddrAt, BitsOk, Held, Owned;
    UpdatedSame(t, i, size);
  }

  lemma NothingLogged(s: State)
    ensures AllLogged(s, s)
  {
  }

  lemma ChangedLogs(s: State, t: State, i: nat, off: nat, d: seq<Byte>, lo: nat, hi: nat)
    requires Changed(s, t, i, off, d, lo, hi)
    ensures AllLogged(s, t)
  {
    hide AllLogged;
  }

  lemma ChangedWritten(s: State, t: State, i: nat, off: nat, d: seq<Byte>, lo: nat, hi: nat)
    requires Changed(s, t, i, off, d, lo, hi)
    ensures Written(s, t, i, off, d)
  {
  }

  lemma UpdatedFrame(t: State, i: nat, size: nat)
    requires Shape(t) && i < |t.ino|
    ensures var u := Updated(t, i, size);
            |u.ino| == |t.ino| && u.lay == t.lay && u.ino[i].size == size && u.din == t.din[i := u.ino[i]]
  {
  }

  lemma FinalLogged(s: State, t: State, i: nat, off: nat, d: seq<Byte>, lo: nat, hi: nat, size: nat)
    requires Changed(s, t, i, off, d, lo, hi) && i < |t.ino| && size <= MAXFILE * BSIZE && Shape(t)
    ensures Shape(Updated(t, i, size))
    ensures Updated(t, i, size).logged <= s.logged + Touches(Updated(t, i, size), i, lo, hi) + {InodeBlock(s.lay, i)}
  {
    hide AddrAt, ByteAt, BitsOk, Held, Owned, Grown;
    UpdatedSame(t, i, size);
    var u := Updated(t, i, size);
    forall b | b in Touches(t, i, lo, hi) ensures b in Touches(u, i, lo, hi) {
      TouchesGrow(t, u, i, lo, hi, lo, hi, b);
    }
  }

  lemma HolesStayFilled(s: State, t: State, i: nat, off: nat, d: seq<Byte>, hi: nat, size: nat)
    requires Changed(s, t, i, off, d, off / BSIZE, hi) && i < |s.ino| && i < |t.ino| && Shape(s) && Shape(t)
    requires NoHoles(s, i)
    requires MappedIn(t, i, off / BSIZE, BlocksTo(off, |d|)) && off <= s.ino[i].size && size <= MAXFILE * BSIZE
    requires size == if off + |d| > s.ino[i].size then off + |d| else s.ino[i].size
    ensures Shape(Updated(t, i, size)) && NoHoles(Updated(t, i, size), i)
  {
    hide AddrAt, ByteAt, BitsOk, Held, Owned, Touches, Written;
    UpdatedSame(t, i, size);
    forall bn: nat | bn < MAXFILE && bn * BSIZE < size ensures AddrAt(t, i, SlotOf(bn)) != 0 {
      if bn * BSIZE >= s.ino[i].size { FilledByWrite(off, |d|, bn); }
    }
  }

  lemma FilledByWrite(off: nat, n: nat, bn: nat)
    requires off <= bn * BSIZE < off + n
    ensures off / BSIZE <= bn < BlocksTo(off, n)
  {
  }

  predicate Aligned(off: nat, tot: nat) { (off + tot) % BSIZE == 0 || tot == 0 }

  /** data is what file i holds at off. */
  ghost predicate Bytes(s: State, i: nat, off: nat, data: seq<Byte>)
    requires Shape(s) && i < |s.ino|
  {
    off + |data| <= MAXFILE * BSIZE && forall q: nat :: q < |data| ==> ByteAt(s, i, off + q) == data[q]
  }

  lemma NoBytes(s: State, i: nat, off: nat)
    requires Inv(s) && i < |s.ino| && off <= s.ino[i].size
    ensures Changed(s, s, i, 0, [], off / BSIZE, BlocksTo(off, 0)) && Bytes(s, i, off, [])
  {
    hide Changed, BitsOk, Held, Owned;
    Unchanged(s, i, 0, off / BSIZE, off / BSIZE);
  }

  lemma MoreBytes(s: State, t: State, i: nat, off: nat, d: seq<Byte>, e: seq<Byte>, lo: nat, hi: nat)
    requires Changed(s, t, i, 0, [], lo, hi) && Shape(s) && Shape(t) && i < |s.ino| && i < |t.ino|
    requires Bytes(s, i, off, d) && Bytes(t, i, off + |d|, e)
    ensures Bytes(s, i, off, d + e)
  {
    hide ByteAt, Inv, Touches, Grown, Shape;
    forall q: nat | q < |d + e| ensures ByteAt(s, i, off + q) == (d + e)[q] {
      if q >= |d| { assert ByteAt(t, i, off + |d| + (q - |d|)) == e[q - |d|]; }
    }
  }

  /** The end of the blocks that hold bytes off to off + tot. */
  function BlocksTo(off: nat, tot: nat): nat {
    if tot == 0 then off / BSIZE else (off + tot - 1) / BSIZE + 1
  }

  lemma InvShape(s: State)
    requires Inv(s)
    ensures Shape(s) && SizesOk(s)
  {
    hide BitsOk, Held, Owned;
  }

  lemma ChangedFacts(s: State, t: State, i: nat, off: nat, d: seq<Byte>, lo: nat, hi: nat)
    requires Changed(s, t, i, off, d, lo, hi)
    ensures Inv(s) && Inv(t) && Shape(s) && Shape(t) && t.lay == s.lay && |t.ino| == |s.ino| && i < |t.ino|
    ensures t.din == s.din
    ensures SizesOk(s) && (forall j: nat :: j < |s.ino| ==> t.ino[j].size == s.ino[j].size)
  {
    hide BitsOk, Held, Owned, Touches, Grown;
  }

  lemma HoleFree(s: State, i: nat, off: nat, n: nat, o: nat)
    requires Shape(s) && SizesOk(s) && i < |s.ino| && Backed(s, i, off, n) && off <= o < off + n && o < s.ino[i].size
    ensures o / BSIZE < MAXFILE && AddrAt(s, i, SlotOf(o / BSIZE)) != 0
  {
    hide AddrAt;
    assert off / BSIZE <= o / BSIZE < BlocksTo(off, n);
  }

  /** bmap of the next block, after the blocks up to offset off + tot. */
  lemma MoreBlocks(s: State, t: State, u: State, i: nat, off: nat, tot: nat, m: nat)
    requires Changed(s, t, i, 0, [], off / BSIZE, BlocksTo(off, tot))
    requires Changed(t, u, i, 0, [], (off + tot) / BSIZE, (off + tot) / BSIZE + 1)
    requires Aligned(off, tot) && BlocksTo(off, tot + m) == (off + tot) / BSIZE + 1
    ensures Changed(s, u, i, 0, [], off / BSIZE, BlocksTo(off, tot + m))
  {
    hide Changed;
    var none: seq<Byte> := [];
    ChangedTwice(s, t, u, i, 0, none, none, off / BSIZE, BlocksTo(off, tot), (off + tot) / BSIZE,
        (off + tot) / BSIZE + 1);
    assert none + none == none;
  }

  lemma ChunkEnd(off: nat, tot: nat, m: nat, cnt: nat)
    requires tot < cnt && Aligned(off, tot) && m == Min(cnt - tot, BSIZE - (off + tot) % BSIZE)
    ensures 0 < m && tot + m <= cnt && (off + tot) % BSIZE + m <= BSIZE
    ensures BlocksTo(off, tot + m) == (off + tot) / BSIZE + 1
    ensures tot + m < cnt ==> Aligned(off, tot + m)
  {
  }

  lemma BlockBounds(s: State, i: nat, bn: nat, a: nat)
    requires IsBlock(s, i, bn, a)
    ensures a < |s.blk| && bn < MAXFILE
  {
    hide AddrAt, BitsOk, Held, Owned;
    BlockFacts(s, i, bn, a);
  }

  lemma BlockByte(s: State, i: nat, bn: nat, a: nat, q: nat)
    requires IsBlock(s, i, bn, a) && q < BSIZE && Shape(s)
    ensures i < |s.ino| && a < |s.blk| && bn * BSIZE + q < MAXFILE * BSIZE
    ensures ByteAt(s, i, bn * BSIZE + q) == s.blk[a][q]
  {
    hide AddrAt, BitsOk, Held, Owned;
    BlockFacts(s, i, bn, a);
    assert (bn * BSIZE + q) / BSIZE == bn && (bn * BSIZE + q) % BSIZE == q;
  }

  lemma SameByte(s: State, t: State, i: nat, lo: nat, hi: nat, o: nat)
    requires Changed(s, t, i, 0, [], lo, hi) && o < MAXFILE * BSIZE
    ensures Shape(s) && Shape(t) && i < |s.ino| && i < |t.ino| && ByteAt(t, i, o) == ByteAt(s, i, o)
  {
    hide ByteAt, Inv, Touches, Grown, Shape;
  }

  lemma ChangedFiles(s: State, t: State, i: nat, lo: nat, hi: nat)
    requires Changed(s, t, i, 0, [], lo, hi)
    ensures Inv(s) && Inv(t) && |t.ino| == |s.ino| && forall j: nat :: j < |s.ino| ==> File(t, j) == File(s, j)
  {
    hide ByteAt, BitsOk, Held, Owned, Touches, Grown;
  }

  lemma FileSlice(s: State, i: nat, off: nat, data: seq<Byte>)
    requires Shape(s) && SizesOk(s) && i < |s.ino| && off + |data| <= s.ino[i].size
    requires Bytes(s, i, off, data)
    ensures data == File(s, i)[off..off + |data|]
  {
    hide ByteAt;
  }

  lemma CutShape(s: State, t: State, i: nat, d: nat, j: nat, all: bool)
    requires Cut(s, t, i, d, j, all)
    ensures i < |t.ino| && InvBut(t, i, if all then 0 else j)
  {
  }

  lemma ChangedInv(s: State, t: State, i: nat, bn: nat)
    requires Changed(s, t, i, 0, [], bn, bn + 1)
    ensures Inv(t) && t.lay == s.lay && |t.ino| == |s.ino|
  {
    hide Inv, Touches, Grown;
  }

  lemma TakenFrame(s: State, b: nat)
    requires Shape(s) && b < s.lay.size
    ensures var t := Taken(s, b);
            Shape(t) && t.lay == s.lay && t.ino == s.ino && t.din == s.din && t.owner == s.owner
  {
  }
}
