/**
 The code of kernel/log.c. Every block write goes through `Device.Write`, which records the disk
 image it leaves behind; the methods promise what each recorded image would recover to.
 */
module Log {
  import opened LogDisk
  import opened LogProtocol

  class Device {
    var blocks: Disk
    ghost var images: seq<Disk>   // the disk after each write, oldest first

    constructor (d: Disk)
      ensures blocks == d && images == []
    {
      blocks, images := d, [];
    }

    /** The disk half of bwrite: one atomic block write. */
    method Write(b: int, v: Block)
      requires 0 <= b < |blocks|
      modifies this
      ensures blocks == old(blocks)[b := v]
      ensures images == old(images) + [blocks]
    {
      blocks := blocks[b := v];
      images := images + [blocks];
    }
  }

  /** Images number `from` up to `to` all recover to m. */
  ghost predicate AllRecover(l: Layout, images: seq<Disk>, from: nat, to: nat, m: HomeView) {
    to <= |images| && forall i :: from <= i < to ==> RecoversTo(l, images[i], m)
  }

  lemma AllRecoverPush(l: Layout, images: seq<Disk>, from: nat, m: HomeView, d: Disk)
    requires AllRecover(l, images, from, |images|, m) && RecoversTo(l, d, m)
    ensures AllRecover(l, images + [d], from, |images| + 1, m)
  {
  }

  /** Recovery from d would give m, and the first k of the logged blocks bs are already home. */
  ghost predicate InstallingTo(l: Layout, d: Disk, bs: seq<int>, k: nat, m: HomeView) {
    HeadOk(l, d) && HeadBlocks(l, d) == bs && Installed(l, d, bs, k) && Home(l, Recover(l, d)) == m
  }

  lemma {:induction false} InstallImage(l: Layout, d: Disk, bs: seq<int>, k: nat)
    requires HeadOk(l, d) && HeadBlocks(l, d) == bs && k <= |bs|
    ensures InstallingTo(l, Install(l, d, bs, k), bs, k, Home(l, Recover(l, d)))
    ensures forall b :: l.start <= b < l.start + l.size ==> Install(l, d, bs, k)[b] == d[b]
  {
    if k > 0 {
      InstallImage(l, d, bs, k - 1);
      ImageStep(l, d, bs, k);
    }
  }

  lemma ImageStep(l: Layout, d: Disk, bs: seq<int>, k: nat)
    requires HeadOk(l, d) && HeadBlocks(l, d) == bs && 0 < k <= |bs|
    requires InstallingTo(l, Install(l, d, bs, k - 1), bs, k - 1, Home(l, Recover(l, d)))
    requires forall b :: l.start <= b < l.start + l.size ==> Install(l, d, bs, k - 1)[b] == d[b]
    ensures InstallingTo(l, Install(l, d, bs, k), bs, k, Home(l, Recover(l, d)))
  {
    hide Recover, Home, Installed;
    InstallStep(l, Install(l, d, bs, k - 1), k - 1);
  }

  lemma InstallImagesRecover(l: Layout, d: Disk, bs: seq<int>, images: seq<Disk>, o: nat)
    requires HeadOk(l, d) && HeadBlocks(l, d) == bs && |images| == o + |bs|
    requires forall i :: o <= i < o + |bs| ==> images[i] == Install(l, d, bs, i - o + 1)
    ensures AllRecover(l, images, o, |images|, Home(l, Recover(l, d)))
  {
    hide Install, Recover, RecoversTo, Home;
    forall i | o <= i < |images| ensures RecoversTo(l, images[i], Home(l, Recover(l, d))) {
      ImageRecovers(l, d, bs, i - o + 1);
    }
  }

  lemma ImageRecovers(l: Layout, d: Disk, bs: seq<int>, k: nat)
    requires HeadOk(l, d) && HeadBlocks(l, d) == bs && k <= |bs|
    ensures RecoversTo(l, Install(l, d, bs, k), Home(l, Recover(l, d)))
  {
    hide Install, Recover, Home, HeadBlocks, Installed;
    InstallImage(l, d, bs, k);
  }

  lemma EntryOnDisk(l: Layout, d: Disk, bs: seq<int>, k: nat)
    requires HeadOk(l, d) && HeadBlocks(l, d) == bs && k < |bs|
    ensures 0 <= bs[k] < |d| && l.start + k + 1 < |d| && |Install(l, d, bs, k)| == |d|
  {
  }

  /** The books of log_write after block b, now holding v, has joined the entries bs. */
  lemma Entered(l: Layout, bs: seq<int>, cache: HomeView, pins: multiset<int>, b: int, v: Block)
    requires Loggable(l, bs) && IsHome(l, b) && |bs| < Capacity(l) && cache.Keys == Names(bs) && pins == multiset(bs)
    ensures Loggable(l, Absorb(bs, b)) && |Absorb(bs, b)| <= LOGSIZE && cache[b := v].Keys == Names(Absorb(bs, b))
    ensures (if b in bs then pins else pins + multiset{b}) == multiset(Absorb(bs, b))
  {
    AbsorbLoggable(l, bs, b);
    OverlayUpdate(map[], cache, b, v);
  }

  lemma NamesAt(bs: seq<int>, k: nat)
    requires k < |bs|
    ensures bs[k] in Names(bs)
  {
  }

  lemma NothingLogged(l: Layout, d: Disk, bs: seq<int>, cache: HomeView)
    requires HeadOk(l, d) && Loggable(l, bs) && cache.Keys == Names(bs)
    ensures Logged(l, d, bs, cache, 0)
  {
  }

  /** Nothing written later changes an image already recorded. */
  lemma AllRecoverPrefix(l: Layout, images: seq<Disk>, more: seq<Disk>, from: nat, to: nat, m: HomeView)
    requires AllRecover(l, images, from, to, m) && images <= more
    ensures AllRecover(l, more, from, to, m)
  {
    forall i | from <= i < to ensures RecoversTo(l, more[i], m) {
      assert more[i] == images[i];
    }
  }

  lemma CommitImages(l: Layout, logged: seq<Disk>, d: Disk, images: seq<Disk>, o: nat,
                     before: HomeView, after: HomeView)
    requires o <= |logged| && AllRecover(l, logged, o, |logged|, before)
    requires RecoversTo(l, d, after) && logged + [d] <= images
    requires AllRecover(l, images, |logged| + 1, |images|, after)
    ensures AllRecover(l, images, o, |logged|, before)
    ensures AllRecover(l, images, |logged|, |images|, after)
  {
    AllRecoverPrefix(l, logged, images, o, |logged|, before);
    assert images[|logged|] == (logged + [d])[|logged|];
  }

  class Log {
    const l: Layout
    const dev: Device
    const block: array<int>        // lh.block
    var n: nat                     // lh.n
    var outstanding: int
    var committing: bool
    var cache: HomeView            // contents of the pinned buffers
    var pins: multiset<int>        // bpin calls not yet undone by bunpin

    ghost predicate Valid()
      reads this, dev, block
    {
      && ValidLayout(l) && |dev.blocks| == l.nblocks
      && block.Length == LOGSIZE && n <= LOGSIZE && Loggable(l, block[..n])
    }

    /** Between commits: nothing in the on-disk log, the pinned buffers are the logged blocks. */
    ghost predicate Open()
      reads this, dev, block
    {
      && Valid() && HeadOk(l, dev.blocks) && HeadBlocks(l, dev.blocks) == []
      && cache.Keys == Names(block[..n]) && pins == multiset(block[..n])
    }

    constructor (lay: Layout, d: Device)
      requires ValidLayout(lay) && |d.blocks| == lay.nblocks
      ensures Valid() && l == lay && dev == d && n == 0 && outstanding == 0 && !committing
      ensures cache == map[] && pins == multiset{}
    {
      l, dev, n, outstanding, committing := lay, d, 0, 0, false;
      block := new int[LOGSIZE](_ => 0);
      cache, pins := map[], multiset{};
    }

    /** One pass of begin_op's loop: admitted, or the caller sleeps and tries again. */
    method BeginOp() returns (admitted: bool)
      requires Valid()
      modifies this`outstanding
      ensures admitted <==> !committing && n + (old(outstanding) + 1) * MAXOPBLOCKS <= LOGSIZE
      ensures outstanding == old(outstanding) + if admitted then 1 else 0
    {
      if committing {
        admitted := false;
      } else if n + (outstanding + 1) * MAXOPBLOCKS > LOGSIZE {
        admitted := false;
      } else {
        outstanding := outstanding + 1;
        admitted := true;
      }
    }

    /** log_write's search for an entry to absorb the write. */
    method FindEntry(b: int) returns (i: nat)
      requires n <= block.Length
      ensures i <= n && b !in block[..i] && (i < n ==> block[i] == b)
    {
      i := 0;
      while i < n
        invariant i <= n
        invariant b !in block[..i]
      {
        if block[i] == b {
          break;
        }
        i := i + 1;
      }
    }

    /** log_write of a buffer for block b now holding v; false is its panic. */
    method LogWrite(b: int, v: Block) returns (ok: bool)
      requires Open() && IsHome(l, b)
      modifies this`n, this`cache, this`pins, block
      ensures Valid()
      ensures ok <==> old(n) < Capacity(l) && old(outstanding) >= 1
      ensures ok ==> Open() && block[..n] == Absorb(old(block[..n]), b) && cache == old(cache)[b := v]
      ensures !ok ==> n == old(n) && block[..n] == old(block[..n]) && cache == old(cache) && pins == old(pins)
    {
      if n >= LOGSIZE || n >= l.size - 1 {
        return false;
      }
      if outstanding < 1 {
        return false;
      }
      var i := FindEntry(b);
      Enter(i, b, v);
      ok := true;
    }

    /** log_write's update: entry i is for block b, and if it is a new one the buffer is pinned. */
    method Enter(i: nat, b: int, v: Block)
      requires Open() && IsHome(l, b) && n < Capacity(l) && i <= n && b !in block[..i] && (i < n ==> block[i] == b)
      modifies this`n, this`cache, this`pins, block
      ensures Open() && block[..n] == Absorb(old(block[..n]), b) && cache == old(cache)[b := v]
    {
      hide HeadOk, HeadBlocks, Names, Loggable, Absorb, IsHome;
      ghost var bs, e := block[..n], Absorb(block[..n], b);
      Entered(l, bs, cache, pins, b, v);
      var isNew := Store(i, b);
      assert block[..n] == e && |e| == n && Loggable(l, block[..n]);
      if isNew {
        pins := pins + multiset{b};
      }
      assert pins == multiset(block[..n]);
      cache := cache[b := v];
      assert cache.Keys == Names(block[..n]);
    }

    /** log.lh.block[i] = b, and one more entry if i was the end of them. */
    method Store(i: nat, b: int) returns (isNew: bool)
      requires i <= n < block.Length && b !in block[..i] && (i < n ==> block[i] == b)
      modifies this`n, block
      ensures n <= block.Length && block[..n] == Absorb(old(block[..n]), b) && (isNew <==> b !in old(block[..n]))
    {
      ghost var bs := block[..n];
      isNew := i == n;
      block[i] := b;
      if isNew {
        assert block[..n + 1] == bs + [b];
        n := n + 1;
      } else {
        assert bs[i] == b && block[..n] == bs;
      }
    }

    /** Copy the pinned buffers to the log: recovery would still find the old contents. */
    method WriteLog()
      requires Open()
      modifies dev
      ensures Open() && Logged(l, dev.blocks, block[..n], cache, n)
      ensures Home(l, dev.blocks) == old(Home(l, dev.blocks))
      ensures |dev.images| == |old(dev.images)| + n && old(dev.images) <= dev.images
      ensures AllRecover(l, dev.images, |old(dev.images)|, |dev.images|, old(Home(l, dev.blocks)))
    {
      hide HeadBlocks, Home, Recover, Logged, Names;
      ghost var m, o := Home(l, dev.blocks), |dev.images|;
      NothingLogged(l, dev.blocks, block[..n], cache);
      var tail := 0;
      while tail < n
        invariant tail <= n && Open() && Logged(l, dev.blocks, block[..n], cache, tail)
        invariant Home(l, dev.blocks) == m
        invariant |dev.images| == o + tail && old(dev.images) <= dev.images
        invariant AllRecover(l, dev.images, o, |dev.images|, m)
      {
        NamesAt(block[..n], tail);
        LogBlockInvisible(l, dev.blocks, l.start + tail + 1, cache[block[tail]]);
        LoggedStep(l, dev.blocks, block[..n], cache, tail);
        ghost var was := dev.images;
        dev.Write(l.start + tail + 1, cache[block[tail]]);
        NoEntriesRecoverInPlace(l, dev.blocks);
        AllRecoverPush(l, was, o, m, dev.blocks);
        tail := tail + 1;
      }
    }

    /** Write the in-memory header to disk. */
    method WriteHead()
      requires Valid()
      modifies dev
      ensures Valid() && dev.blocks == old(dev.blocks)[l.start := PutHead(old(dev.blocks)[l.start], block[..n])]
      ensures dev.images == old(dev.images) + [dev.blocks]
    {
      var hb: Block := dev.blocks[l.start];
      ghost var h0 := hb;
      hb := hb[0 := n];
      var i := 0;
      while i < n
        invariant i <= n
        invariant |hb| == BWORDS && hb[0] == n
        invariant forall j :: 1 <= j <= i ==> hb[j] == block[j - 1]
        invariant forall j :: i < j < BWORDS ==> hb[j] == h0[j]
      {
        hb := hb[i + 1 := block[i]];
        i := i + 1;
      }
      assert hb == PutHead(h0, block[..n]);
      dev.Write(l.start, hb);
    }

    /** Read the on-disk header into memory. */
    method ReadHead()
      requires Valid() && HeadOk(l, dev.blocks)
      modifies this`n, block
      ensures Valid() && block[..n] == HeadBlocks(l, dev.blocks)
    {
      var h := dev.blocks[l.start];
      var m := h[0];
      var i := 0;
      while i < m
        invariant 0 <= i <= m
        invariant forall j :: 0 <= j < i ==> block[j] == h[1 + j]
      {
        block[i] := h[1 + i];
        i := i + 1;
      }
      n := m;
      assert block[..n] == HeadBlocks(l, dev.blocks);
    }

    /**
     Copy the logged blocks home. Each image on the way recovers to the same contents, which at the
     end are the home contents themselves.
     */
    method InstallTrans(recovering: bool)
      requires Valid() && HeadOk(l, dev.blocks) && HeadBlocks(l, dev.blocks) == block[..n]
      requires !recovering ==> pins == multiset(block[..n])
      modifies dev, this`pins
      ensures Valid() && HeadOk(l, dev.blocks) && HeadBlocks(l, dev.blocks) == block[..n]
      ensures Installed(l, dev.blocks, block[..n], n)
      ensures Home(l, Recover(l, dev.blocks)) == old(Home(l, Recover(l, dev.blocks)))
      ensures |dev.images| == |old(dev.images)| + n && old(dev.images) <= dev.images
      ensures AllRecover(l, dev.images, |old(dev.images)|, |dev.images|, old(Home(l, Recover(l, dev.blocks))))
      ensures pins == if recovering then old(pins) else multiset{}
    {
      ghost var d, bs, o := dev.blocks, block[..n], |dev.images|;
      var tail := 0;
      while tail < n
        invariant tail <= n && dev.blocks == Install(l, d, bs, tail)
        invariant |dev.images| == o + tail && old(dev.images) <= dev.images
        invariant forall i :: o <= i < o + tail ==> dev.images[i] == Install(l, d, bs, i - o + 1)
        invariant pins == if recovering then old(pins) else multiset(bs[tail..])
      {
        InstallOne(tail, recovering, d, bs);
        Unpin(bs, tail);
        tail := tail + 1;
      }
      InstallImage(l, d, bs, n);
      InstallImagesRecover(l, d, bs, dev.images, o);
    }

    /** One turn of install_trans: a logged block goes home, and its buffer is unpinned. */
    method InstallOne(tail: nat, recovering: bool, ghost d: Disk, ghost bs: seq<int>)
      requires Valid() && HeadOk(l, d) && HeadBlocks(l, d) == bs == block[..n] && tail < n
      requires dev.blocks == Install(l, d, bs, tail)
      modifies dev, this`pins
      ensures dev.blocks == Install(l, d, bs, tail + 1) && dev.images == old(dev.images) + [dev.blocks]
      ensures pins == if recovering then old(pins) else old(pins) - multiset{bs[tail]}
    {
      hide HeadOk, HeadBlocks;
      InstallImage(l, d, bs, tail);
      EntryOnDisk(l, d, bs, tail);
      assert block[tail] == bs[tail];
      var lbuf := dev.blocks[l.start + tail + 1];
      dev.Write(block[tail], lbuf);
      pins := if recovering then pins else pins - multiset{block[tail]};
    }

    /** The common tail of commit and recover_from_log: install, then erase the transaction. */
    method InstallAndErase(recovering: bool)
      requires Valid() && HeadOk(l, dev.blocks) && HeadBlocks(l, dev.blocks) == block[..n]
      requires pins == if recovering then multiset{} else multiset(block[..n])
      modifies dev, this`pins, this`n, this`cache
      ensures Open() && n == 0
      ensures Home(l, dev.blocks) == old(Home(l, Recover(l, dev.blocks)))
      ensures |dev.images| == |old(dev.images)| + old(n) + 1 && old(dev.images) <= dev.images
      ensures AllRecover(l, dev.images, |old(dev.images)|, |dev.images|, old(Home(l, Recover(l, dev.blocks))))
    {
      ghost var m, o := Home(l, Recover(l, dev.blocks)), |dev.images|;
      InstallTrans(recovering);
      ClearStep(l, dev.blocks);
      ghost var was := dev.images;
      n, cache := 0, map[];
      assert block[..n] == [];
      WriteHead();
      AllRecoverPush(l, was, o, m, dev.blocks);
    }

    /**
     commit: of the 2n+2 images it leaves, the first n recover to the contents before the
     transaction and all the others to the contents after it.
     */
    method Commit()
      requires Open()
      modifies this`n, this`cache, this`pins, dev
      ensures Open() && n == 0
      ensures Home(l, dev.blocks) == old(Home(l, dev.blocks)) + old(cache)
      ensures |dev.images| == |old(dev.images)| + (if old(n) > 0 then 2 * old(n) + 2 else 0)
      ensures AllRecover(l, dev.images, |old(dev.images)|, |old(dev.images)| + old(n), old(Home(l, dev.blocks)))
      ensures AllRecover(l, dev.images, |old(dev.images)| + old(n), |dev.images|,
                         old(Home(l, dev.blocks)) + old(cache))
    {
      if n > 0 {
        ghost var before, o := Home(l, dev.blocks), |dev.images|;
        ghost var after := before + cache;
        WriteLog();
        ghost var logged := dev.images;
        HeadWriteCommits(l, dev.blocks, block[..n], cache);
        WriteHead();
        ghost var d := dev.blocks;
        InstallAndErase(false);
        CommitImages(l, logged, d, dev.images, o, before, after);
      } else {
        assert cache == map[];
      }
    }

    /** end_op: the last operation out commits. False is the panic on log.committing. */
    method EndOp() returns (ok: bool)
      requires Open() && outstanding >= 1
      modifies this, dev
      ensures outstanding == old(outstanding) - 1
      ensures ok <==> !old(committing)
      ensures ok ==> Open() && !committing
      ensures ok && outstanding == 0 ==> n == 0 && Home(l, dev.blocks) == old(Home(l, dev.blocks)) + old(cache)
      ensures ok && outstanding == 0 ==>
                && |dev.images| == |old(dev.images)| + (if old(n) > 0 then 2 * old(n) + 2 else 0)
                && AllRecover(l, dev.images, |old(dev.images)|, |old(dev.images)| + old(n), old(Home(l, dev.blocks)))
                && AllRecover(l, dev.images, |old(dev.images)| + old(n), |dev.images|,
                    old(Home(l, dev.blocks)) + old(cache))
      ensures !ok || outstanding > 0 ==>
                dev.blocks == old(dev.blocks) && dev.images == old(dev.images) && cache == old(cache) && n == old(n)
    {
      outstanding := outstanding - 1;
      if committing {
        return false;
      }
      ok := true;
      if outstanding == 0 {
        committing := true;
        Commit();
        committing := false;
      }
    }

    /** recover_from_log: every image on the way, and the final one, recovers to the same contents. */
    method RecoverFromLog()
      requires Valid() && HeadOk(l, dev.blocks) && cache == map[] && pins == multiset{}
      modifies this, block, dev
      ensures Open() && n == 0
      ensures Home(l, dev.blocks) == old(Home(l, Recover(l, dev.blocks)))
      ensures old(dev.images) <= dev.images
      ensures AllRecover(l, dev.images, |old(dev.images)|, |dev.images|, old(Home(l, Recover(l, dev.blocks))))
    {
      ReadHead();
      InstallAndErase(true);
    }
  }
}
