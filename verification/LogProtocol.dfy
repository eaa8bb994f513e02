/**
 The logging protocol of kernel/log.c as a state machine. Every step is one critical section under
 log.lock or one block write, any number of file system operations interleave, and the machine may
 stop between any two steps, including inside recovery.
 */
module LogProtocol {
  import opened LogDisk

  /** One log_write: operation `op` changed home block `blockno` to `data`. */
  datatype Write = Write(op: nat, blockno: int, data: Block)

  /** An operation between begin_op and end_op, with the number of log entries it has added. */
  datatype Op = Op(id: nat, added: nat)

  datatype Phase =
    | Running                                // committing == 0
    | Logging(k: nat)                        // in write_log
    | Installing(k: nat)                     // in install_trans(0)
    | Erased                                 // commit has returned, committing still 1
    | Down                                   // stopped: memory is lost
    | Recovering(bs: seq<int>, k: nat)       // in install_trans(1)

  /**
   `journal` lists every log_write not lost in a crash and `landed` how many of them are durable;
   no step reads these two.
   */
  datatype State = State(
    disk: Disk, phase: Phase, lh: seq<int>, cache: HomeView, pins: multiset<int>,
    active: seq<Op>, nextOp: nat, journal: seq<Write>, landed: nat)

  /** The simple disk the log is meant to look like: writes applied in order, all of them kept. */
  function Replay(m: HomeView, ws: seq<Write>): HomeView {
    if ws == [] then m
    else Replay(m, ws[..|ws| - 1])[ws[|ws| - 1].blockno := ws[|ws| - 1].data]
  }

  /** The log entries after log_write(b): absorbed when already there. */
  function Absorb(bs: seq<int>, b: int): seq<int> {
    if b in bs then bs else bs + [b]
  }

  // ---- steps ----

  /** begin_op's test that the new operation cannot exhaust the log. */
  predicate Admits(s: State) {
    s.phase.Running? && |s.lh| + (|s.active| + 1) * MAXOPBLOCKS <= LOGSIZE
  }

  predicate Begin(s: State, s': State) {
    Admits(s) && s' == s.(active := s.active + [Op(s.nextOp, 0)], nextOp := s.nextOp + 1)
  }

  /** log_write's capacity test. */
  predicate TooBig(l: Layout, s: State) {
    |s.lh| >= LOGSIZE || |s.lh| >= l.size - 1
  }

  predicate LogWrite(l: Layout, quota: nat, s: State, s': State, a: nat, b: int, v: Block) {
    && s.phase.Running? && a < |s.active| && IsHome(l, b) && !TooBig(l, s)
    && (b in s.lh || s.active[a].added < quota)
    && var fresh_ := if b in s.lh then 0 else 1;
    s' == s.(lh := Absorb(s.lh, b),
    cache := s.cache[b := v],
    pins := if b in s.lh then s.pins else s.pins + multiset{b},
    active := s.active[a := Op(s.active[a].id, s.active[a].added + fresh_)],
    journal := s.journal + [Write(s.active[a].id, b, v)])
  }

  predicate End(s: State, s': State, a: nat) {
    && s.phase.Running? && a < |s.active|
    && var rest := s.active[..a] + s.active[a + 1..];
    s' == s.(active := rest, phase := if rest == [] then Logging(0) else Running)
  }

  predicate WriteLogBlock(l: Layout, s: State, s': State) {
    && s.phase.Logging? && s.phase.k < |s.lh| && s.lh[s.phase.k] in s.cache
    && l.start + 1 + s.phase.k < |s.disk|
    && s' == s.(disk := s.disk[l.start + 1 + s.phase.k := s.cache[s.lh[s.phase.k]]],
    phase := Logging(s.phase.k + 1))
  }

  predicate WriteHead(l: Layout, s: State, s': State) {
    && s.phase.Logging? && s.phase.k == |s.lh| && 0 < |s.lh| <= LOGSIZE && l.start < |s.disk|
    && s' == s.(disk := s.disk[l.start := PutHead(s.disk[l.start], s.lh)],
    phase := Installing(0), landed := |s.journal|)
  }

  predicate EmptyCommit(s: State, s': State) {
    s.phase.Logging? && s.lh == [] && s' == s.(phase := Erased)
  }

  predicate InstallBlock(l: Layout, s: State, s': State) {
    && s.phase.Installing? && s.phase.k < |s.lh| && 0 <= s.lh[s.phase.k] < |s.disk|
    && l.start + 1 + s.phase.k < |s.disk|
    && s' == s.(disk := s.disk[s.lh[s.phase.k] := s.disk[l.start + 1 + s.phase.k]],
    pins := s.pins - multiset{s.lh[s.phase.k]},
    phase := Installing(s.phase.k + 1))
  }

  predicate EraseHead(l: Layout, s: State, s': State) {
    && s.phase.Installing? && s.phase.k == |s.lh| && l.start < |s.disk|
    && s' == s.(disk := s.disk[l.start := PutHead(s.disk[l.start], [])],
    lh := [], cache := map[], phase := Erased)
  }

  predicate Finish(s: State, s': State) {
    s.phase.Erased? && s' == s.(phase := Running)
  }

  predicate Crash(s: State, s': State) {
    && s.landed <= |s.journal|
    && s' == State(s.disk, Down, [], map[], multiset{}, [], s.nextOp, s.journal[..s.landed], s.landed)
  }

  predicate ReadHead(l: Layout, s: State, s': State) {
    s.phase.Down? && HeadOk(l, s.disk) && s' == s.(phase := Recovering(HeadBlocks(l, s.disk), 0))
  }

  predicate RecoverBlock(l: Layout, s: State, s': State) {
    && s.phase.Recovering? && s.phase.k < |s.phase.bs| && 0 <= s.phase.bs[s.phase.k] < |s.disk|
    && l.start + 1 + s.phase.k < |s.disk|
    && s' == s.(disk := s.disk[s.phase.bs[s.phase.k] := s.disk[l.start + 1 + s.phase.k]],
    phase := Recovering(s.phase.bs, s.phase.k + 1))
  }

  predicate RecoverDone(l: Layout, s: State, s': State) {
    && s.phase.Recovering? && s.phase.k == |s.phase.bs| && l.start < |s.disk|
    && s' == s.(disk := s.disk[l.start := PutHead(s.disk[l.start], [])], phase := Running)
  }

  ghost predicate Next(l: Layout, quota: nat, s: State, s': State) {
    || Begin(s, s')
    || (exists a: nat, b, v :: LogWrite(l, quota, s, s', a, b, v))
    || (exists a: nat :: End(s, s', a))
    || WriteLogBlock(l, s, s') || WriteHead(l, s, s') || EmptyCommit(s, s')
    || InstallBlock(l, s, s') || EraseHead(l, s, s') || Finish(s, s')
    || Crash(s, s')
    || ReadHead(l, s, s') || RecoverBlock(l, s, s') || RecoverDone(l, s, s')
  }

  /** A freshly made file system: the log header is empty. */
  predicate Init(l: Layout, s: State) {
    && HeadOk(l, s.disk) && HeadBlocks(l, s.disk) == []
    && s == State(s.disk, Down, [], map[], multiset{}, [], 0, [], 0)
  }

  ghost predicate Run(l: Layout, quota: nat, run: seq<State>) {
    && |run| > 0 && Init(l, run[0])
    && forall i :: 0 <= i < |run| - 1 ==> Next(l, quota, run[i], run[i + 1])
  }

  // ---- invariant ----

  /** Between two crashes the durable writes and the others come from different operations. */
  predicate WholeOps(s: State) {
    && s.landed <= |s.journal|
    && (forall i, j :: 0 <= i < s.landed <= j < |s.journal| ==> s.journal[i].op != s.journal[j].op)
    && (forall i :: 0 <= i < |s.journal| ==> s.journal[i].op < s.nextOp)
    && (forall a :: 0 <= a < |s.active| ==> s.active[a].id < s.nextOp)
    && (forall a, i :: 0 <= a < |s.active| && 0 <= i < s.landed ==> s.journal[i].op != s.active[a].id)
  }

  /** The transaction being assembled: what is pinned, and what the cache shows. */
  predicate Pending(l: Layout, m: HomeView, s: State) {
    && HeadOk(l, s.disk) && HeadBlocks(l, s.disk) == []
    && Loggable(l, s.lh) && s.cache.Keys == Names(s.lh) && s.pins == multiset(s.lh)
    && Home(l, s.disk) + s.cache == Replay(m, s.journal)
    && (s.lh == [] ==> s.landed == |s.journal|)
  }

  predicate Quiet(s: State) {
    s.lh == [] && s.cache == map[] && s.pins == multiset{} && s.active == [] && s.landed == |s.journal|
  }

  predicate PhaseInv(l: Layout, m: HomeView, s: State) {
    match s.phase
    case Running => Pending(l, m, s) && (s.active == [] ==> s.lh == [])
    case Logging(k) =>
      Pending(l, m, s) && s.active == [] && k <= |s.lh| && Logged(l, s.disk, s.lh, s.cache, k)
    case Installing(k) =>
      && HeadOk(l, s.disk) && HeadBlocks(l, s.disk) == s.lh && Installed(l, s.disk, s.lh, k)
      && s.active == [] && s.landed == |s.journal| && s.pins == multiset(s.lh[k..])
    case Erased => Quiet(s) && HeadOk(l, s.disk) && HeadBlocks(l, s.disk) == []
    case Down => Quiet(s)
    case Recovering(bs, k) =>
      Quiet(s) && HeadOk(l, s.disk) && HeadBlocks(l, s.disk) == bs && Installed(l, s.disk, bs, k)
  }

  /** m is the home contents the run started from. */
  ghost predicate Inv(l: Layout, m: HomeView, s: State) {
    && WholeOps(s)
    && PhaseInv(l, m, s)
    && RecoversTo(l, s.disk, Replay(m, s.journal[..s.landed]))
  }

  // ---- the invariant is kept by every step ----

  lemma InitInv(l: Layout, s: State)
    requires Init(l, s)
    ensures Inv(l, Home(l, s.disk), s)
  {
    NoEntriesRecoverInPlace(l, s.disk);
  }

  lemma AbsorbLoggable(l: Layout, bs: seq<int>, b: int)
    requires Loggable(l, bs) && IsHome(l, b) && |bs| < Capacity(l)
    ensures Loggable(l, Absorb(bs, b))
    ensures Names(Absorb(bs, b)) == Names(bs) + {b}
    ensures multiset(Absorb(bs, b)) == if b in bs then multiset(bs) else multiset(bs) + multiset{b}
  {
  }

  lemma OverlayUpdate(m: HomeView, cache: HomeView, b: int, v: Block)
    ensures m + cache[b := v] == (m + cache)[b := v]
    ensures cache[b := v].Keys == cache.Keys + {b}
  {
  }

  lemma LogWriteWhole(l: Layout, quota: nat, s: State, s': State, a: nat, b: int, v: Block)
    requires WholeOps(s) && LogWrite(l, quota, s, s', a, b, v)
    ensures WholeOps(s')
  {
  }

  lemma LogWritePending(l: Layout, quota: nat, m: HomeView, s: State, s': State, a: nat, b: int, v: Block)
    requires Pending(l, m, s) && LogWrite(l, quota, s, s', a, b, v)
    ensures Pending(l, m, s')
  {
    AbsorbLoggable(l, s.lh, b);
    assert s'.journal[..|s'.journal| - 1] == s.journal;
    OverlayUpdate(Home(l, s.disk), s.cache, b, v);
    assert b in s'.lh;
  }

  lemma LogWriteKeeps(l: Layout, quota: nat, m: HomeView, s: State, s': State, a: nat, b: int, v: Block)
    requires Inv(l, m, s) && LogWrite(l, quota, s, s', a, b, v)
    ensures Inv(l, m, s')
  {
    hide Pending, HeadOk, HeadBlocks, Recover, Home, Replay, Absorb;
    LogWriteWhole(l, quota, s, s', a, b, v);
    LogWritePending(l, quota, m, s, s', a, b, v);
    assert s'.journal[..s'.landed] == s.journal[..s.landed];
  }

  lemma EndWhole(s: State, s': State, a: nat)
    requires WholeOps(s) && End(s, s', a)
    ensures WholeOps(s')
  {
  }

  lemma EndKeeps(l: Layout, m: HomeView, s: State, s': State, a: nat)
    requires Inv(l, m, s) && End(s, s', a)
    ensures PhaseInv(l, m, s')
  {
  }

  lemma LoggedStep(l: Layout, d: Disk, bs: seq<int>, cache: HomeView, k: nat)
    requires Logged(l, d, bs, cache, k) && k < |bs| && bs[k] in cache
    ensures Logged(l, d[l.start + 1 + k := cache[bs[k]]], bs, cache, k + 1)
  {
  }

  lemma WriteLogBlockPending(l: Layout, m: HomeView, s: State, s': State)
    requires Pending(l, m, s) && WriteLogBlock(l, s, s')
    ensures Pending(l, m, s')
    ensures Home(l, Recover(l, s'.disk)) == Home(l, Recover(l, s.disk))
  {
    hide Recover, Home, Replay, HeadBlocks;
    NoEntriesRecoverInPlace(l, s.disk);
    LogBlockInvisible(l, s.disk, l.start + 1 + s.phase.k, s.cache[s.lh[s.phase.k]]);
    NoEntriesRecoverInPlace(l, s'.disk);
  }

  lemma WriteLogBlockKeeps(l: Layout, m: HomeView, s: State, s': State)
    requires PhaseInv(l, m, s) && WriteLogBlock(l, s, s') && Pending(l, m, s')
    ensures PhaseInv(l, m, s')
  {
    LoggedStep(l, s.disk, s.lh, s.cache, s.phase.k);
  }

  lemma WriteHeadRecovers(l: Layout, m: HomeView, s: State, s': State)
    requires Pending(l, m, s) && WriteHead(l, s, s') && Logged(l, s.disk, s.lh, s.cache, |s.lh|)
    ensures HeadOk(l, s'.disk) && HeadBlocks(l, s'.disk) == s.lh
    ensures RecoversTo(l, s'.disk, Replay(m, s'.journal[..s'.landed]))
  {
    hide Recover, Home, Replay, Logged, Loggable, HeadOk, HeadBlocks, RecoversTo, PutHead;
    HeadWriteCommits(l, s.disk, s.lh, s.cache);
    assert s'.journal[..s'.landed] == s.journal;
  }

  lemma WriteHeadKeeps(l: Layout, m: HomeView, s: State, s': State)
    requires WriteHead(l, s, s') && s.active == [] && s.pins == multiset(s.lh) && Loggable(l, s.lh)
    requires HeadOk(l, s'.disk) && HeadBlocks(l, s'.disk) == s.lh
    ensures PhaseInv(l, m, s')
  {
    assert s.lh[0..] == s.lh;
  }

  lemma Unpin(bs: seq<int>, k: nat)
    requires k < |bs|
    ensures multiset(bs[k..]) - multiset{bs[k]} == multiset(bs[k + 1..])
  {
    assert bs[k..] == [bs[k]] + bs[k + 1..];
  }

  lemma InstallBlockKeeps(l: Layout, m: HomeView, s: State, s': State)
    requires Inv(l, m, s) && InstallBlock(l, s, s')
    ensures Inv(l, m, s')
  {
    hide PhaseInv, RecoversTo, Replay;
    WholeSame(s, s');
    InstallBlockPhase(l, m, s, s', Replay(m, s.journal[..s.landed]));
  }

  lemma InstallBlockPhase(l: Layout, m: HomeView, s: State, s': State, after: HomeView)
    requires PhaseInv(l, m, s) && RecoversTo(l, s.disk, after) && InstallBlock(l, s, s')
    ensures PhaseInv(l, m, s') && RecoversTo(l, s'.disk, after)
  {
    hide PhaseInv, HeadOk, HeadBlocks, Installed, RecoversTo;
    var k := s.phase.k;
    InstallingPhase(l, m, s);
    InstallDisk(l, s.disk, s.lh, k, after);
    Unpin(s.lh, k);
    assert s'.phase == Installing(k + 1) && s'.lh == s.lh && s'.pins == multiset(s.lh[k + 1..]);
    assert s'.disk == s.disk[s.lh[k] := s.disk[l.start + 1 + k]];
    InstallingPhase(l, m, s');
  }

  lemma InstallingPhase(l: Layout, m: HomeView, s: State)
    requires s.phase.Installing?
    ensures PhaseInv(l, m, s) <==>
            && HeadOk(l, s.disk) && HeadBlocks(l, s.disk) == s.lh && Installed(l, s.disk, s.lh, s.phase.k)
            && s.active == [] && s.landed == |s.journal| && s.pins == multiset(s.lh[s.phase.k..])
  {
    hide HeadOk, HeadBlocks, Installed;
  }

  /** Copying the k-th logged block home changes nothing that recovery would see. */
  lemma InstallDisk(l: Layout, d: Disk, bs: seq<int>, k: nat, m: HomeView)
    requires HeadOk(l, d) && HeadBlocks(l, d) == bs && k < |bs| && Installed(l, d, bs, k) && RecoversTo(l, d, m)
    ensures 0 <= bs[k] < |d| && l.start + 1 + k < |d|
    ensures var d' := d[bs[k] := d[l.start + 1 + k]];
            HeadOk(l, d') && HeadBlocks(l, d') == bs && Installed(l, d', bs, k + 1) && RecoversTo(l, d', m)
  {
    hide Recover, Home, Installed;
    InstallStep(l, d, k);
  }

  lemma WholeSame(s: State, s': State)
    requires WholeOps(s) && s'.journal == s.journal && s'.landed == s.landed && s'.active == s.active
    requires s'.nextOp == s.nextOp
    ensures WholeOps(s')
  {
  }

  lemma EraseHeadKeeps(l: Layout, m: HomeView, s: State, s': State)
    requires Inv(l, m, s) && EraseHead(l, s, s')
    ensures Inv(l, m, s')
  {
    ClearStep(l, s.disk);
  }

  lemma FinishKeeps(l: Layout, m: HomeView, s: State, s': State)
    requires Inv(l, m, s) && Finish(s, s')
    ensures Inv(l, m, s')
  {
    NoEntriesRecoverInPlace(l, s.disk);
    assert s.journal[..s.landed] == s.journal;
  }

  lemma RecoverBlockKeeps(l: Layout, m: HomeView, s: State, s': State)
    requires Inv(l, m, s) && RecoverBlock(l, s, s')
    ensures Inv(l, m, s')
  {
    InstallStep(l, s.disk, s.phase.k);
  }

  lemma RecoverDoneKeeps(l: Layout, m: HomeView, s: State, s': State)
    requires Inv(l, m, s) && RecoverDone(l, s, s')
    ensures Inv(l, m, s')
  {
    ClearStep(l, s.disk);
    assert s.journal[..s.landed] == s.journal;
    assert Home(l, s'.disk) + s'.cache == Home(l, s'.disk);
  }

  /** The steps that write nothing to the disk. */
  lemma MemoryStepKeeps(l: Layout, m: HomeView, s: State, s': State)
    requires Inv(l, m, s)
    requires Begin(s, s') || EmptyCommit(s, s') || Crash(s, s') || ReadHead(l, s, s')
    ensures PhaseInv(l, m, s')
    ensures RecoversTo(l, s'.disk, Replay(m, s'.journal[..s'.landed]))
  {
    hide PhaseInv, RecoversTo, Replay, HeadOk, HeadBlocks;
    assert s'.journal[..s'.landed] == s.journal[..s.landed];
    if Begin(s, s') {
      BeginKeeps(l, m, s, s');
    } else if EmptyCommit(s, s') {
      EmptyCommitKeeps(l, m, s, s');
    } else if Crash(s, s') {
      CrashKeeps(l, m, s, s');
    } else {
      ReadHeadKeeps(l, m, s, s');
    }
  }

  lemma BeginKeeps(l: Layout, m: HomeView, s: State, s': State)
    requires PhaseInv(l, m, s) && Begin(s, s')
    ensures PhaseInv(l, m, s')
  {
    hide HeadOk, HeadBlocks, Home, Replay, Loggable;
  }

  lemma EmptyCommitKeeps(l: Layout, m: HomeView, s: State, s': State)
    requires PhaseInv(l, m, s) && EmptyCommit(s, s')
    ensures PhaseInv(l, m, s')
  {
    hide HeadOk, HeadBlocks, Home, Replay, Loggable;
  }

  lemma CrashKeeps(l: Layout, m: HomeView, s: State, s': State)
    requires Crash(s, s')
    ensures PhaseInv(l, m, s')
  {
  }

  lemma ReadHeadKeeps(l: Layout, m: HomeView, s: State, s': State)
    requires PhaseInv(l, m, s) && ReadHead(l, s, s')
    ensures PhaseInv(l, m, s')
  {
    hide HeadOk, HeadBlocks, Installed, Pending;
    NothingInstalled(l, s.disk, HeadBlocks(l, s.disk));
  }

  lemma NothingInstalled(l: Layout, d: Disk, bs: seq<int>)
    requires HeadOk(l, d) && HeadBlocks(l, d) == bs
    ensures Installed(l, d, bs, 0)
  {
  }

  lemma OtherStepWhole(l: Layout, s: State, s': State)
    requires WholeOps(s)
    requires || Begin(s, s') || EmptyCommit(s, s') || Crash(s, s') || ReadHead(l, s, s')
             || WriteLogBlock(l, s, s') || (WriteHead(l, s, s') && s.active == [])
    ensures WholeOps(s')
  {
  }

  lemma StepKeeps(l: Layout, quota: nat, m: HomeView, s: State, s': State)
    requires Inv(l, m, s) && Next(l, quota, s, s')
    ensures Inv(l, m, s')
  {
    if a: nat, b, v :| LogWrite(l, quota, s, s', a, b, v) {
      LogWriteKeeps(l, quota, m, s, s', a, b, v);
    } else if a: nat :| End(s, s', a) {
      EndWhole(s, s', a);
      EndKeeps(l, m, s, s', a);
    } else if InstallBlock(l, s, s') {
      InstallBlockKeeps(l, m, s, s');
    } else if EraseHead(l, s, s') {
      EraseHeadKeeps(l, m, s, s');
    } else if Finish(s, s') {
      FinishKeeps(l, m, s, s');
    } else if RecoverBlock(l, s, s') {
      RecoverBlockKeeps(l, m, s, s');
    } else if RecoverDone(l, s, s') {
      RecoverDoneKeeps(l, m, s, s');
    } else {
      OtherStepWhole(l, s, s');
      if WriteLogBlock(l, s, s') {
        WriteLogBlockPending(l, m, s, s');
        WriteLogBlockKeeps(l, m, s, s');
      } else if WriteHead(l, s, s') {
        WriteHeadRecovers(l, m, s, s');
        WriteHeadKeeps(l, m, s, s');
      } else {
        MemoryStepKeeps(l, m, s, s');
      }
    }
  }

  lemma {:induction false} RunInv(l: Layout, quota: nat, run: seq<State>, i: nat)
    requires Run(l, quota, run) && i < |run|
    ensures Inv(l, Home(l, run[0].disk), run[i])
  {
    if i == 0 {
      InitInv(l, run[0]);
    } else {
      RunInv(l, quota, run, i - 1);
      StepKeeps(l, quota, Home(l, run[0].disk), run[i - 1], run[i]);
    }
  }

  /**
   Crash atomicity. At every point of every run, whatever the interleaving and however many crashes
   and partial recoveries came before, the disk recovers to exactly the durable writes applied in
   order, and no operation is split between the durable writes and the rest.
   */
  lemma CrashAtomicity(l: Layout, quota: nat, run: seq<State>, i: nat)
    requires Run(l, quota, run) && i < |run|
    ensures var s := run[i];
            && s.landed <= |s.journal|
            && RecoversTo(l, s.disk, Replay(Home(l, run[0].disk), s.journal[..s.landed]))
            && (forall p, q :: 0 <= p < s.landed <= q < |s.journal| ==> s.journal[p].op != s.journal[q].op)
  {
    RunInv(l, quota, run, i);
  }

  /** Only the write of a non-empty header makes anything durable, and it makes everything durable. */
  lemma DurableOnlyByHeadWrite(l: Layout, quota: nat, s: State, s': State)
    requires Next(l, quota, s, s') && s'.landed != s.landed
    ensures WriteHead(l, s, s') && s'.landed == |s.journal|
  {
  }

  /** Outside recovery readers see every write in order; pins are one per logged block. */
  lemma CacheShowsAllWrites(l: Layout, quota: nat, run: seq<State>, i: nat)
    requires Run(l, quota, run) && i < |run| && run[i].phase.Running?
    ensures var s := run[i];
            && |s.disk| == l.nblocks && Home(l, s.disk) + s.cache == Replay(Home(l, run[0].disk), s.journal)
            && Distinct(s.lh) && s.pins == multiset(s.lh)
            && (s.active == [] ==> s.landed == |s.journal|)
  {
    RunInv(l, quota, run, i);
  }

  /** commit only runs with no operation active, so end_op's "log.committing" panic cannot fire. */
  lemma CommitRunsAlone(l: Layout, quota: nat, run: seq<State>, i: nat)
    requires Run(l, quota, run) && i < |run|
    ensures run[i].active != [] ==> run[i].phase.Running?
    ensures run[i].phase.Running? && run[i].active == [] ==> run[i].lh == []
  {
    RunInv(l, quota, run, i);
  }

  // ---- log space ----

  /** What the active operations may still add, each being allowed `quota` entries. */
  function Unused(active: seq<Op>, quota: nat): int {
    if active == [] then 0 else Unused(active[..|active| - 1], quota) + quota - active[|active| - 1].added
  }

  lemma {:induction false} UnusedUpdate(active: seq<Op>, quota: nat, a: nat, o: Op)
    requires a < |active|
    ensures Unused(active[a := o], quota) == Unused(active, quota) + active[a].added - o.added
  {
    var n := |active| - 1;
    if a < n {
      UnusedUpdate(active[..n], quota, a, o);
      assert active[a := o][..n] == active[..n][a := o];
    } else {
      assert active[a := o][..n] == active[..n];
    }
  }

  lemma {:induction false} UnusedRemove(active: seq<Op>, quota: nat, a: nat)
    requires a < |active|
    ensures Unused(active[..a] + active[a + 1..], quota) == Unused(active, quota) - quota + active[a].added
  {
    var n := |active| - 1;
    if a < n {
      UnusedRemove(active[..n], quota, a);
      assert (active[..a] + active[a + 1..])[..n - 1] == active[..n][..a] + active[..n][a + 1..];
    } else {
      assert active[..a] + active[a + 1..] == active[..n];
    }
  }

  lemma {:induction false} UnusedBounds(active: seq<Op>, quota: nat)
    requires forall a :: 0 <= a < |active| ==> active[a].added <= quota
    ensures 0 <= Unused(active, quota) <= quota * |active|
  {
    if active != [] { UnusedBounds(active[..|active| - 1], quota); }
  }

  /**
   The space invariant when every operation adds at most `quota` entries: the log entries and the
   unused quotas fit in LOGSIZE, and in LOGSIZE-2 once the quota leaves one block of slack.
   */
  predicate SpaceInv(quota: nat, s: State) {
    && (forall a :: 0 <= a < |s.active| ==> s.active[a].added <= quota)
    && (s.active != [] ==>
          |s.lh| + Unused(s.active, quota) <= (if quota < MAXOPBLOCKS then LOGSIZE - 2 else LOGSIZE))
  }

  lemma BeginKeepsSpace(quota: nat, s: State, s': State)
    requires quota <= MAXOPBLOCKS && SpaceInv(quota, s) && Begin(s, s')
    requires s.active == [] ==> s.lh == []
    ensures SpaceInv(quota, s')
  {
    UnusedBounds(s.active, quota);
    assert s'.active[..|s.active|] == s.active;
    assert quota * |s.active| <= (if quota < MAXOPBLOCKS then 9 else 10) * |s.active|;
  }

  lemma LogWriteKeepsSpace(l: Layout, quota: nat, s: State, s': State, a: nat, b: int, v: Block)
    requires quota <= MAXOPBLOCKS && SpaceInv(quota, s) && LogWrite(l, quota, s, s', a, b, v)
    ensures SpaceInv(quota, s')
  {
    UnusedUpdate(s.active, quota, a, s'.active[a]);
  }

  lemma EndKeepsSpace(quota: nat, s: State, s': State, a: nat)
    requires quota <= MAXOPBLOCKS && SpaceInv(quota, s) && End(s, s', a)
    ensures SpaceInv(quota, s')
  {
    UnusedRemove(s.active, quota, a);
  }

  lemma StepKeepsSpace(l: Layout, quota: nat, s: State, s': State)
    requires quota <= MAXOPBLOCKS && SpaceInv(quota, s) && Next(l, quota, s, s')
    requires s.phase.Running? && s.active == [] ==> s.lh == []
    requires s.active != [] ==> s.phase.Running?
    ensures SpaceInv(quota, s')
  {
    if a: nat, b, v :| LogWrite(l, quota, s, s', a, b, v) {
      LogWriteKeepsSpace(l, quota, s, s', a, b, v);
    } else if a: nat :| End(s, s', a) {
      EndKeepsSpace(quota, s, s', a);
    } else if Begin(s, s') {
      BeginKeepsSpace(quota, s, s');
    }
  }

  lemma {:induction false} RunSpace(l: Layout, quota: nat, run: seq<State>, i: nat)
    requires quota <= MAXOPBLOCKS && Run(l, quota, run) && i < |run|
    ensures SpaceInv(quota, run[i])
  {
    hide Next, SpaceInv;
    if i == 0 {
      FirstSpace(l, quota, run[0]);
    } else {
      RunSpace(l, quota, run, i - 1);
      CommitRunsAlone(l, quota, run, i - 1);
      assert Next(l, quota, run[i - 1], run[i - 1 + 1]);
      StepKeepsSpace(l, quota, run[i - 1], run[i]);
    }
  }

  lemma FirstSpace(l: Layout, quota: nat, s: State)
    requires Init(l, s)
    ensures SpaceInv(quota, s)
  {
  }

  /** Reservation: log entries plus the unused part of every active reservation fit in LOGSIZE. */
  lemma Reservation(l: Layout, run: seq<State>, i: nat)
    requires Run(l, MAXOPBLOCKS, run) && i < |run| && run[i].active != []
    ensures |run[i].lh| + Unused(run[i].active, MAXOPBLOCKS) <= LOGSIZE
  {
    RunSpace(l, MAXOPBLOCKS, run, i);
  }

  /**
   With the log mkfs makes (log.size == LOGSIZE) log_write's capacity panic cannot fire as long as
   no operation adds more than MAXOPBLOCKS-1 entries.
   */
  lemma NoCapacityPanic(l: Layout, quota: nat, run: seq<State>, i: nat)
    requires l.size == LOGSIZE && quota < MAXOPBLOCKS
    requires Run(l, quota, run) && i < |run| && run[i].active != []
    ensures !TooBig(l, run[i])
  {
    RunSpace(l, quota, run, i);
    UnusedBounds(run[i].active, quota);
  }

  // ---- an operation's entries are bounded by the blocks it writes ----

  /** The blocks operation id has written. */
  function Touched(ws: seq<Write>, id: nat): set<int> {
    set i | 0 <= i < |ws| && ws[i].op == id :: ws[i].blockno
  }

  lemma TouchedPush(ws: seq<Write>, w: Write, id: nat)
    ensures Touched(ws + [w], id) == Touched(ws, id) + if w.op == id then {w.blockno} else {}
  {
    var vs := ws + [w];
    forall b | b in Touched(ws, id) ensures b in Touched(vs, id) {
      var i :| 0 <= i < |ws| && ws[i].op == id && ws[i].blockno == b;
      assert vs[i] == ws[i];
    }
    if w.op == id { assert vs[|ws|] == w; }
  }

  /** No two active operations are the same one. */
  predicate OwnIds(s: State) {
    && (forall a, c :: 0 <= a < c < |s.active| ==> s.active[a].id != s.active[c].id)
    && (forall a :: 0 <= a < |s.active| ==> s.active[a].id < s.nextOp)
    && (forall i :: 0 <= i < |s.journal| ==> s.journal[i].op < s.nextOp)
  }

  /** Each entry an active operation added is for another of its blocks, and all of those are in the log. */
  predicate CountOk(s: State) {
    OwnIds(s) && forall a :: 0 <= a < |s.active| ==> OpCounted(s, s.active[a])
  }

  predicate OpCounted(s: State, o: Op) {
    o.added <= |Touched(s.journal, o.id)| && Touched(s.journal, o.id) <= Names(s.lh)
  }

  lemma BeginCounts(s: State, s': State)
    requires CountOk(s) && Begin(s, s')
    ensures CountOk(s')
  {
    assert Touched(s.journal, s.nextOp) == {};
    forall a | 0 <= a < |s'.active| ensures OpCounted(s', s'.active[a]) {
      if a < |s.active| { assert OpCounted(s, s.active[a]); }
    }
  }

  lemma LogWriteCounts(l: Layout, quota: nat, s: State, s': State, a: nat, b: int, v: Block)
    requires CountOk(s) && LogWrite(l, quota, s, s', a, b, v)
    ensures CountOk(s')
  {
    hide Touched, Loggable, IsHome;
    forall c | 0 <= c < |s'.active| ensures OpCounted(s', s'.active[c]) {
      var o := s.active[c];
      assert OpCounted(s, o);
      TouchedPush(s.journal, Write(s.active[a].id, b, v), o.id);
      NamesAbsorb(s.lh, b);
      if c == a { OneMore(Touched(s.journal, o.id), b); }
    }
  }

  lemma NamesAbsorb(bs: seq<int>, b: int)
    ensures Names(Absorb(bs, b)) == Names(bs) + {b} && (b in bs <==> b in Names(bs))
  {
  }

  lemma OneMore(t: set<int>, b: int)
    ensures |t + {b}| == if b in t then |t| else |t| + 1
  {
    if b in t { assert t + {b} == t; }
  }

  lemma EndCounts(s: State, s': State, a: nat)
    requires CountOk(s) && End(s, s', a)
    ensures CountOk(s')
  {
    hide Touched;
    forall c | 0 <= c < |s'.active| ensures OpCounted(s', s'.active[c]) {
      assert OpCounted(s, s.active[if c < a then c else c + 1]);
    }
  }

  lemma StepCounts(l: Layout, quota: nat, s: State, s': State)
    requires CountOk(s) && Next(l, quota, s, s') && (s.active != [] ==> s.phase.Running?)
    ensures CountOk(s')
  {
    hide Touched, OpCounted;
    if a: nat, b, v :| LogWrite(l, quota, s, s', a, b, v) {
      LogWriteCounts(l, quota, s, s', a, b, v);
    } else if a: nat :| End(s, s', a) {
      EndCounts(s, s', a);
    } else if Begin(s, s') {
      BeginCounts(s, s');
    }
  }

  lemma {:induction false} RunCounts(l: Layout, quota: nat, run: seq<State>, i: nat)
    requires Run(l, quota, run) && i < |run|
    ensures CountOk(run[i])
  {
    hide Next, CountOk;
    if i == 0 {
      FirstCounts(l, run[0]);
    } else {
      RunCounts(l, quota, run, i - 1);
      CommitRunsAlone(l, quota, run, i - 1);
      assert Next(l, quota, run[i - 1], run[i - 1 + 1]);
      StepCounts(l, quota, run[i - 1], run[i]);
    }
  }

  lemma FirstCounts(l: Layout, s: State)
    requires Init(l, s)
    ensures CountOk(s)
  {
  }

  /** Every operation active at s has written at most q different blocks. */
  predicate Narrow(s: State, q: nat) {
    forall a :: 0 <= a < |s.active| ==> |Touched(s.journal, s.active[a].id)| <= q
  }

  lemma NarrowStep(l: Layout, quota: nat, q: nat, s: State, s': State)
    requires CountOk(s) && CountOk(s') && Next(l, quota, s, s') && Narrow(s', q)
    ensures Next(l, q, s, s')
  {
    hide Touched;
    if a: nat, b, v :| LogWrite(l, quota, s, s', a, b, v) {
      assert OpCounted(s', s'.active[a]);
      assert LogWrite(l, q, s, s', a, b, v);
    }
  }

  /** A run in which no operation writes more than q blocks keeps to the quota q. */
  lemma NarrowRun(l: Layout, quota: nat, q: nat, run: seq<State>)
    requires Run(l, quota, run) && forall i :: 0 <= i < |run| ==> Narrow(run[i], q)
    ensures Run(l, q, run)
  {
    hide Next, CountOk, Narrow;
    forall i | 0 <= i < |run| - 1 ensures Next(l, q, run[i], run[i + 1]) {
      RunCounts(l, quota, run, i);
      RunCounts(l, quota, run, i + 1);
      NarrowStep(l, quota, q, run[i], run[i + 1]);
    }
  }

  /**
   log_write's capacity panic cannot fire in a run whose operations each write at most MAXOPBLOCKS - 1
   different blocks, however often and however interleaved.
   */
  lemma NoPanicByBlocks(l: Layout, quota: nat, q: nat, run: seq<State>, i: nat)
    requires l.size == LOGSIZE && q < MAXOPBLOCKS && Run(l, quota, run) && i < |run| && run[i].active != []
    requires forall j :: 0 <= j < |run| ==> Narrow(run[j], q)
    ensures !TooBig(l, run[i])
  {
    hide Next, Narrow;
    NarrowRun(l, quota, q, run);
    NoCapacityPanic(l, q, run, i);
  }

  // ---- the bound on an operation's entries is exact ----

  /** The i-th block outside the log. */
  function NthHome(l: Layout, i: nat): int {
    if i < l.start then i else i + l.size
  }

  function Clamp(n: int): nat {
    if n < 0 then 0 else if n < MAXOPBLOCKS then n else MAXOPBLOCKS
  }

  lemma Extend(l: Layout, quota: nat, run: seq<State>, s: State)
    requires Run(l, quota, run) && Next(l, quota, run[|run| - 1], s)
    ensures Run(l, quota, run + [s])
  {
    var r := run + [s];
    forall i | 0 <= i < |r| - 1 ensures Next(l, quota, r[i], r[i + 1]) {
      if i < |run| - 1 { assert r[i] == run[i] && r[i + 1] == run[i + 1]; }
    }
  }

  /** Boot an empty disk and admit three operations. */
  lemma ThreeAdmitted(l: Layout, quota: nat) returns (run: seq<State>)
    requires ValidLayout(l)
    ensures Run(l, quota, run)
    ensures var s := run[|run| - 1];
            s.phase.Running? && s.lh == [] && s.active == [Op(0, 0), Op(1, 0), Op(2, 0)]
  {
    var d: Disk := seq(l.nblocks, _ => seq(BWORDS, _ => 0));
    var s := State(d, Down, [], map[], multiset{}, [], 0, [], 0);
    run := [s];
    s := s.(phase := Recovering([], 0));
    assert ReadHead(l, run[0], s);
    Extend(l, quota, run, s);
    run := run + [s];
    var t := s.(disk := s.disk[l.start := PutHead(s.disk[l.start], [])], phase := Running);
    assert RecoverDone(l, s, t);
    Extend(l, quota, run, t);
    run := run + [t];
    var a := t.(active := [Op(0, 0)], nextOp := 1);
    Extend(l, quota, run, a);
    run := run + [a];
    var b := a.(active := [Op(0, 0), Op(1, 0)], nextOp := 2);
    Extend(l, quota, run, b);
    run := run + [b];
    var c := b.(active := [Op(0, 0), Op(1, 0), Op(2, 0)], nextOp := 3);
    Extend(l, quota, run, c);
    run := run + [c];
  }

  /** They log n new blocks, ten each in turn. */
  lemma {:induction false} FillLog(l: Layout, quota: nat, n: nat) returns (run: seq<State>)
    requires ValidLayout(l) && l.size == LOGSIZE && n < LOGSIZE && l.size + n <= l.nblocks
    requires quota >= MAXOPBLOCKS
    ensures Run(l, quota, run) && Filled(l, run[|run| - 1], n)
  {
    hide Filled, Next, LogWrite;
    if n == 0 {
      run := ThreeAdmitted(l, quota);
      NoneFilled(l, run[|run| - 1]);
    } else {
      run := FillLog(l, quota, n - 1);
      var s' := FillOne(l, quota, run[|run| - 1], n - 1);
      Extend(l, quota, run, s');
      run := run + [s'];
    }
  }

  /** The first n blocks outside the log are in it, added by three operations of ten each. */
  predicate Filled(l: Layout, s: State, n: nat) {
    && s.phase.Running? && |s.lh| == n && (forall i :: 0 <= i < n ==> s.lh[i] == NthHome(l, i))
    && s.active == [Op(0, Clamp(n)), Op(1, Clamp(n - 10)), Op(2, Clamp(n - 20))]
  }

  lemma NoneFilled(l: Layout, s: State)
    requires s.phase.Running? && s.lh == [] && s.active == [Op(0, 0), Op(1, 0), Op(2, 0)]
    ensures Filled(l, s, 0)
  {
  }

  lemma FillOne(l: Layout, quota: nat, s: State, n: nat) returns (s': State)
    requires ValidLayout(l) && l.size == LOGSIZE && n < LOGSIZE - 1 && l.size + n < l.nblocks && quota >= MAXOPBLOCKS
    requires Filled(l, s, n)
    ensures Next(l, quota, s, s') && Filled(l, s', n + 1)
  {
    var a := n / 10;
    var b := NthHome(l, n);
    var v: Block := seq(BWORDS, _ => 0);
    s' := s.(lh := Absorb(s.lh, b), cache := s.cache[b := v], pins := s.pins + multiset{b},
    active := s.active[a := Op(s.active[a].id, s.active[a].added + 1)],
    journal := s.journal + [Write(s.active[a].id, b, v)]);
    assert LogWrite(l, quota, s, s', a, b, v);
  }

  /**
   On the log mkfs makes, the capacity panic is unreachable exactly when operations stay below
   MAXOPBLOCKS entries: an operation that uses its whole reservation can meet it.
   */
  lemma PanicFreeIffBelowReservation(l: Layout, quota: nat)
    requires ValidLayout(l) && l.size == LOGSIZE && 2 * LOGSIZE <= l.nblocks
    ensures (forall run: seq<State>, i :: Run(l, quota, run) && 0 <= i < |run| && run[i].active != [] ==>
        !TooBig(l, run[i]))
            <==> quota < MAXOPBLOCKS
  {
    if quota < MAXOPBLOCKS {
      forall run: seq<State>, i | Run(l, quota, run) && 0 <= i < |run| && run[i].active != []
        ensures !TooBig(l, run[i])
      {
        NoCapacityPanic(l, quota, run, i);
      }
    } else {
      var run := FillLog(l, quota, LOGSIZE - 1);
      assert TooBig(l, run[|run| - 1]);
    }
  }
}
