/**
 The on-disk redo log of kernel/log.c: its layout, what recovery computes from a disk image, and
 which single-block writes recovery cannot see.
 */
module LogDisk {

  const MAXOPBLOCKS := 10
  const LOGSIZE := 3 * MAXOPBLOCKS

  // A 1024-byte block seen as the 256 words the log header is made of.
  const BWORDS := 256
  type Block = b: seq<int> | |b| == BWORDS witness seq(BWORDS, _ => 0)
  type Disk = seq<Block>
  type HomeView = map<int, Block>

  /** The log occupies blocks start .. start+size-1; the header is block `start`. */
  datatype Layout = Layout(start: nat, size: nat, nblocks: nat)

  predicate ValidLayout(l: Layout) {
    1 <= l.size && l.start + l.size <= l.nblocks
  }

  /** The number of data blocks a transaction may hold: log_write refuses one more. */
  function Capacity(l: Layout): int {
    if l.size - 1 < LOGSIZE then l.size - 1 else LOGSIZE
  }

  predicate IsHome(l: Layout, b: int) {
    0 <= b < l.nblocks && !(l.start <= b < l.start + l.size)
  }

  predicate Distinct(bs: seq<int>) {
    forall i, j :: 0 <= i < j < |bs| ==> bs[i] != bs[j]
  }

  /** A list of block numbers that may stand in a log header. */
  predicate Loggable(l: Layout, bs: seq<int>) {
    && |bs| <= Capacity(l)
    && Distinct(bs)
    && forall i :: 0 <= i < |bs| ==> IsHome(l, bs[i])
  }

  /** The header block after write_head: words beyond the entries keep their old value. */
  function PutHead(h: Block, bs: seq<int>): Block
    requires |bs| <= LOGSIZE
  {
    seq(BWORDS, i requires 0 <= i < BWORDS => if i == 0 then |bs| else if i <= |bs| then bs[i - 1] else h[i])
  }

  predicate HeadOk(l: Layout, d: Disk) {
    && ValidLayout(l)
    && |d| == l.nblocks
    && 0 <= d[l.start][0] <= Capacity(l)
    && Loggable(l, d[l.start][1..1 + d[l.start][0]])
  }

  function HeadBlocks(l: Layout, d: Disk): (bs: seq<int>)
    requires HeadOk(l, d)
    ensures Loggable(l, bs)
  {
    d[l.start][1..1 + d[l.start][0]]
  }

  /** The disk after copying the first k logged blocks to their home locations. */
  function Install(l: Layout, d: Disk, bs: seq<int>, k: nat): (r: Disk)
    requires ValidLayout(l) && |d| == l.nblocks && Loggable(l, bs) && k <= |bs|
    ensures |r| == |d|
  {
    if k == 0 then d else Install(l, d, bs, k - 1)[bs[k - 1] := d[l.start + k]]
  }

  /** What a recovery that runs to completion makes of image d. */
  function Recover(l: Layout, d: Disk): (r: Disk)
    requires HeadOk(l, d)
    ensures |r| == |d|
  {
    var bs := HeadBlocks(l, d);
    Install(l, d, bs, |bs|)[l.start := PutHead(d[l.start], [])]
  }

  /** The file system's own blocks: everything outside the log region. */
  function Home(l: Layout, d: Disk): (m: HomeView)
    requires |d| == l.nblocks
    ensures forall b :: b in m ==> IsHome(l, b)
    ensures forall b :: IsHome(l, b) ==> b in m && m[b] == d[b]
  {
    map b: int | 0 <= b < l.nblocks && IsHome(l, b) :: d[b]
  }

  /** Image d, if the machine stopped now, recovers to exactly the home contents m. */
  ghost predicate RecoversTo(l: Layout, d: Disk, m: HomeView) {
    HeadOk(l, d) && Home(l, Recover(l, d)) == m
  }

  lemma {:induction false} InstallAt(l: Layout, d: Disk, bs: seq<int>, k: nat, b: int)
    requires ValidLayout(l) && |d| == l.nblocks && Loggable(l, bs) && k <= |bs| && 0 <= b < |d|
    ensures forall i :: 0 <= i < k && bs[i] == b ==> Install(l, d, bs, k)[b] == d[l.start + 1 + i]
    ensures b !in bs[..k] ==> Install(l, d, bs, k)[b] == d[b]
  {
    if k > 0 {
      InstallAt(l, d, bs, k - 1, b);
      assert bs[..k] == bs[..k - 1] + [bs[k - 1]];
    }
  }

  /** Recovery reads a home block from the log if the header names it, and in place otherwise. */
  lemma RecoverAt(l: Layout, d: Disk, b: int)
    requires HeadOk(l, d) && IsHome(l, b)
    ensures forall i :: 0 <= i < |HeadBlocks(l, d)| && HeadBlocks(l, d)[i] == b
              ==> Recover(l, d)[b] == d[l.start + 1 + i]
    ensures b !in HeadBlocks(l, d) ==> Recover(l, d)[b] == d[b]
  {
    var bs := HeadBlocks(l, d);
    InstallAt(l, d, bs, |bs|, b);
    assert bs[..|bs|] == bs;
  }

  lemma PutHeadDecodes(l: Layout, d: Disk, bs: seq<int>)
    requires ValidLayout(l) && |d| == l.nblocks && Loggable(l, bs)
    ensures var d' := d[l.start := PutHead(d[l.start], bs)];
            HeadOk(l, d') && HeadBlocks(l, d') == bs
  {
    var h := PutHead(d[l.start], bs);
    assert h[1..1 + |bs|] == bs;
  }

  lemma NoEntriesRecoverInPlace(l: Layout, d: Disk)
    requires HeadOk(l, d) && HeadBlocks(l, d) == []
    ensures Home(l, Recover(l, d)) == Home(l, d)
  {
    forall b | IsHome(l, b) ensures Recover(l, d)[b] == d[b] { RecoverAt(l, d, b); }
  }

  /**
   Two images with the same log region, differing only in home blocks the header names, recover
   alike: this is why a crash in the middle of installing is harmless, in commit and in recovery.
   */
  lemma RecoverIgnoresLoggedHomes(l: Layout, d: Disk, d': Disk)
    requires HeadOk(l, d) && |d'| == |d|
    requires forall b :: l.start <= b < l.start + l.size ==> d'[b] == d[b]
    requires forall b :: IsHome(l, b) && b !in HeadBlocks(l, d) ==> d'[b] == d[b]
    ensures HeadOk(l, d') && HeadBlocks(l, d') == HeadBlocks(l, d)
    ensures Home(l, Recover(l, d')) == Home(l, Recover(l, d))
  {
    var bs := HeadBlocks(l, d);
    forall b | IsHome(l, b) ensures Recover(l, d')[b] == Recover(l, d)[b] {
      RecoverAt(l, d, b);
      RecoverAt(l, d', b);
      if i :| 0 <= i < |bs| && bs[i] == b {
        assert d'[l.start + 1 + i] == d[l.start + 1 + i];
      }
    }
  }

  /** Writing any log data block is invisible to recovery while the header names no block. */
  lemma LogBlockInvisible(l: Layout, d: Disk, b: int, v: Block)
    requires HeadOk(l, d) && HeadBlocks(l, d) == []
    requires l.start < b < l.start + l.size
    ensures var d' := d[b := v];
            HeadOk(l, d') && HeadBlocks(l, d') == [] && Home(l, Recover(l, d')) == Home(l, d)
  {
    NoEntriesRecoverInPlace(l, d[b := v]);
    assert Home(l, d[b := v]) == Home(l, d);
  }

  lemma HomeIsOverlay(l: Layout, d: Disk, r: Disk, cache: HomeView)
    requires |d| == |r| == l.nblocks
    requires forall b :: b in cache ==> IsHome(l, b)
    requires forall b :: IsHome(l, b) ==> r[b] == if b in cache then cache[b] else d[b]
    ensures Home(l, r) == Home(l, d) + cache
  {
  }

  /** The log data blocks hold the cached contents of the first k entries. */
  predicate Logged(l: Layout, d: Disk, bs: seq<int>, cache: HomeView, k: nat) {
    && ValidLayout(l) && |d| == l.nblocks && k <= |bs| <= Capacity(l)
    && forall i :: 0 <= i < k ==> bs[i] in cache && d[l.start + 1 + i] == cache[bs[i]]
  }

  /** The blocks named in bs. */
  function Names(bs: seq<int>): set<int> { set b | b in bs }

  /** Writing the header is the commit point: recovery changes from the old to the new contents. */
  lemma HeadWriteCommits(l: Layout, d: Disk, bs: seq<int>, cache: HomeView)
    requires HeadOk(l, d) && HeadBlocks(l, d) == [] && Loggable(l, bs)
    requires Logged(l, d, bs, cache, |bs|) && cache.Keys == Names(bs)
    ensures var d' := d[l.start := PutHead(d[l.start], bs)];
            HeadOk(l, d') && HeadBlocks(l, d') == bs && RecoversTo(l, d', Home(l, d) + cache)
  {
    var d' := d[l.start := PutHead(d[l.start], bs)];
    PutHeadDecodes(l, d, bs);
    var r := Recover(l, d');
    forall b | IsHome(l, b)
      ensures r[b] == if b in cache then cache[b] else d[b]
    {
      RecoverAt(l, d', b);
      if i :| 0 <= i < |bs| && bs[i] == b {
        assert d'[l.start + 1 + i] == d[l.start + 1 + i];
      }
    }
    HomeIsOverlay(l, d, r, cache);
  }

  /** The first k logged blocks have reached their home locations. */
  predicate Installed(l: Layout, d: Disk, bs: seq<int>, k: nat) {
    && ValidLayout(l) && |d| == l.nblocks && k <= |bs| <= Capacity(l)
    && forall i :: 0 <= i < k ==> IsHome(l, bs[i]) && d[bs[i]] == d[l.start + 1 + i]
  }

  lemma InstallStep(l: Layout, d: Disk, k: nat)
    requires HeadOk(l, d) && k < |HeadBlocks(l, d)| && Installed(l, d, HeadBlocks(l, d), k)
    ensures var bs := HeadBlocks(l, d);
            var d' := d[bs[k] := d[l.start + 1 + k]];
            && HeadOk(l, d') && HeadBlocks(l, d') == bs && Installed(l, d', bs, k + 1)
            && Home(l, Recover(l, d')) == Home(l, Recover(l, d))
  {
    var bs := HeadBlocks(l, d);
    RecoverIgnoresLoggedHomes(l, d, d[bs[k] := d[l.start + 1 + k]]);
  }

  /** Once everything is installed, erasing the header loses nothing. */
  lemma ClearStep(l: Layout, d: Disk)
    requires HeadOk(l, d) && Installed(l, d, HeadBlocks(l, d), |HeadBlocks(l, d)|)
    ensures var d' := d[l.start := PutHead(d[l.start], [])];
            && HeadOk(l, d') && HeadBlocks(l, d') == []
            && Home(l, d') == Home(l, Recover(l, d)) == Home(l, Recover(l, d'))
  {
    var d' := d[l.start := PutHead(d[l.start], [])];
    PutHeadDecodes(l, d, []);
    NoEntriesRecoverInPlace(l, d');
    forall b | IsHome(l, b) ensures d'[b] == Recover(l, d)[b] {
      RecoverAt(l, d, b);
      var bs := HeadBlocks(l, d);
      if i :| 0 <= i < |bs| && bs[i] == b { }
    }
  }
}
