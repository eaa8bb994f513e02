/**
 Processes, CPUs and locks of kernel/proc.c, kernel/spinlock.c and kernel/sleeplock.c as a state
 machine. A step runs from one lock operation to the next; steps of all CPUs interleave freely.
 swtch hands the CPU and the lock it holds from the scheduler to a process or back.
 */
module Proc {

  const INIT := 0     // initproc
  const NINODE := 50  // the first sleep locks are those of the inodes, the others those of buffers
  const ITABLE := 0   // itable.lock and bcache.lock among the inner locks
  const BCACHE := 1

  datatype PState = UNUSED | USED | SLEEPING | RUNNABLE | RUNNING | ZOMBIE

  /** Sleep channels: any number under each condition's spinlock, and one per process for wait(). */
  datatype Chan = NoChan | CondChan(k: nat, j: nat) | ProcChan(p: int)

  /**
   p->lock; the spinlock of condition k, which for the first |free| of them is the one inside a sleep
   lock and otherwise any other (a pipe's, the log's, the disk's); wait_lock; and the locks that guard
   data only and are never slept under (kmem.lock, pid_lock, ftable.lock, itable.lock, bcache.lock).
   */
  datatype Lock = ProcLock(p: nat) | CondLock(k: nat) | WaitLock | InnerLock(j: nat)

  /** What a process does when it next runs after swtch. */
  datatype After = Back(pc: Pc) | Reacquire(lk: Lock) | Forkret | Never

  /** Where wakeup returns to. */
  datatype Cont = ReleaseCond(k: nat) | Resumed(k: nat) | Reparented(i: nat) | ParentWoken

  /** Where the kernel thread of a process is. */
  datatype Pc =
    | Idle                                       // running, holds no lock
    | YieldHold(back: Pc)                        // yield: holds own lock
    | Sched(next: After)                         // in sched(): own lock held, state already changed
    | Resume(next: After)                        // switched out; holds own lock once switched in
    | CondHold(k: nat)                           // acquiresleep, or other code: holds CondLock(k)
    | AskHold(k: nat)                            // holdingsleep: holds CondLock(k)
    | SleepHold(lk: Lock, ch: Chan)              // sleep: holds lk and own lock
    | Falling(lk: Lock, ch: Chan)                // sleep: lk released, own lock held
    | Woken(lk: Lock)                            // sleep: own lock released, lk not yet reacquired
    | Waking(ch: Chan, i: nat, cont: Cont)       // wakeup: about to look at process i
    | WakeHold(ch: Chan, i: nat, cont: Cont)     // wakeup: holds process i's lock
    | KillHold(q: nat)                           // kill: holds q's lock
    | WaitScan(i: nat, kids: bool)               // wait: holds wait_lock
    | WaitHold(i: nat, kids: bool)               // wait: also holds child i's lock
    | WaitDone(reaped: bool)                     // wait: child released, and freed or not; wait_lock still held
    | ExitScan(i: nat)                           // exit, in reparent: holds wait_lock
    | ExitReady                                  // exit: parent woken
    | ExitHold                                   // exit: also holds own lock
    | ExitZombie                                 // exit: state is ZOMBIE
    | ForkLook(q: nat)                           // allocproc: holds q's lock
    | ForkFill(q: nat)                           // fork: q is USED, its lock held
    | ForkParent(q: nat)                         // fork: q's lock released
    | ForkWait(q: nat)                           // fork: q's parent set under wait_lock
    | ForkRun(q: nat)                            // fork: wait_lock released
    | ForkSet(q: nat)                            // fork: q's lock held again
    | Inner(back: Pc, j: nat)                    // holds inner lock j besides what it holds at back
    | IputLock(k: nat)                           // iput: holds itable.lock and CondLock(k)

  /** What a CPU is doing. */
  datatype Ctl = Looking | Picked(p: nat) | Run(p: nat) | Returned(p: nat)

  datatype State = State(
    st: seq<PState>, chan: seq<Chan>, parent: seq<int>, killed: seq<bool>, pc: seq<Pc>,
    ctl: seq<Ctl>, noff: seq<int>, locks: map<Lock, nat>,
    intr: seq<bool>, intena: seq<bool>,   // interrupts enabled on a CPU; c->intena
    saved: seq<bool>,                     // sched()'s local copy of intena, for a process switched out
    free: seq<bool>,                      // free[k]: sleep lock k is not locked
    lockedBy: seq<nat>,                   // otherwise, who has it
    refs: seq<set<nat>>)                  // the inodes and buffers a process has a reference to

  /** The spinlock a wakeup is made under. */
  function LockOf(cont: Cont): Lock {
    match cont
    case ReleaseCond(k) => CondLock(k)
    case Resumed(k) => CondLock(k)
    case Reparented(_) => WaitLock
    case ParentWoken => WaitLock
  }

  /** ch is slept on, and woken, with lk held. */
  predicate ChanUnder(lk: Lock, ch: Chan) {
    match ch case CondChan(k, _) => lk == CondLock(k) case ProcChan(_) => lk == WaitLock case NoChan => false
  }

  /** The spinlocks process p holds at pc. */
  function Holds(pc: Pc, p: nat): set<Lock> {
    match pc
    case Idle => {}
    case YieldHold(_) => {ProcLock(p)}
    case Sched(_) => {ProcLock(p)}
    case Resume(_) => {ProcLock(p)}
    case CondHold(k) => {CondLock(k)}
    case AskHold(k) => {CondLock(k)}
    case SleepHold(lk, _) => {lk, ProcLock(p)}
    case Falling(_, _) => {ProcLock(p)}
    case Woken(_) => {}
    case Waking(_, _, cont) => {LockOf(cont)}
    case WakeHold(_, i, cont) => {LockOf(cont), ProcLock(i)}
    case KillHold(q) => {ProcLock(q)}
    case WaitScan(_, _) => {WaitLock}
    case WaitHold(i, _) => {WaitLock, ProcLock(i)}
    case WaitDone(_) => {WaitLock}
    case ExitScan(_) => {WaitLock}
    case ExitReady => {WaitLock}
    case ExitHold => {WaitLock, ProcLock(p)}
    case ExitZombie => {WaitLock, ProcLock(p)}
    case ForkLook(q) => {ProcLock(q)}
    case ForkFill(q) => {ProcLock(q)}
    case ForkParent(_) => {}
    case ForkWait(_) => {WaitLock}
    case ForkRun(_) => {}
    case ForkSet(q) => {ProcLock(q)}
    case Inner(back, j) => Holds(back, p) + {InnerLock(j)}
    case IputLock(k) => {InnerLock(ITABLE), CondLock(k)}
  }

  /** The spinlocks held on CPU c: its own, as scheduler, or those of the process it runs. */
  function HeldBy(s: State, c: nat): set<Lock>
    requires c < |s.ctl|
  {
    match s.ctl[c]
    case Looking => {}
    case Picked(p) => {ProcLock(p)}
    case Returned(p) => {ProcLock(p)}
    case Run(p) => if p < |s.pc| then Holds(s.pc[p], p) else {}
  }

  /** c->proc. */
  predicate OnCpu(s: State, c: nat, p: nat)
    requires c < |s.ctl|
  {
    s.ctl[c] == Run(p) || s.ctl[c] == Returned(p)
  }

  // ---- acquire and release ----

  predicate Shape(s: State) {
    && |s.st| == |s.chan| == |s.parent| == |s.killed| == |s.pc| == |s.saved| == |s.refs| && INIT < |s.st|
    && |s.ctl| == |s.noff| == |s.intr| == |s.intena| && |s.lockedBy| == |s.free|
  }

  predicate HasCpu(s: State, c: nat) { c < |s.ctl| == |s.noff| == |s.intr| == |s.intena| }

  /** CPU c takes the free lock l; push_off turns interrupts off and remembers what they were. */
  function Acquire(s: State, c: nat, l: Lock): State
    requires HasCpu(s, c)
  {
    s.(locks := s.locks[l := c], noff := s.noff[c := s.noff[c] + 1], intr := s.intr[c := false],
    intena := if s.noff[c] == 0 then s.intena[c := s.intr[c]] else s.intena)
  }

  /** CPU c gives l up; the last pop_off turns interrupts back on if they were. */
  function Release(s: State, c: nat, l: Lock): State
    requires HasCpu(s, c)
  {
    s.(locks := s.locks - {l}, noff := s.noff[c := s.noff[c] - 1],
    intr := if s.noff[c] == 1 && s.intena[c] then s.intr[c := true] else s.intr)
  }

  function Goto(s: State, p: nat, pc: Pc): State
    requires p < |s.pc|
  {
    s.(pc := s.pc[p := pc])
  }

  // ---- what a process may do next ----

  /** A move of process p: the lock it takes, or gives back, or neither, and where it goes. */
  datatype Move = Take(l: Lock, to: Pc) | Give(l: Lock, to: Pc) | Stay(to: Pc)

  /** Moves that touch no shared field besides the lock itself; they depend only on what p may read. */
  predicate Moves(s: State, p: nat, m: Move)
    requires Shape(s) && p < |s.pc|
  {
    var n := |s.pc|;
    match s.pc[p]
    case Idle =>
      // timer interrupt; acquiresleep or other code under a condition's lock; holdingsleep; kill; wait; exit; fork
      || m == Take(ProcLock(p), YieldHold(Idle))
      || (m.Take? && m.l.CondLock? && (m.l.k < |s.free| ==> m.l.k in s.refs[p]) && m.to == CondHold(m.l.k))
      || (m.Take? && m.l.CondLock? && m.l.k < |s.free| && m.l.k in s.refs[p] && m.to == AskHold(m.l.k))
      || (exists q :: 0 <= q < n && m == Take(ProcLock(q), KillHold(q)))
      || m == Take(WaitLock, WaitScan(0, false))
      || (p != INIT && s.refs[p] == {} && m == Take(WaitLock, ExitScan(0)))
      || (exists q :: 0 <= q < n && q != p && m == Take(ProcLock(q), ForkLook(q)))
    case CondHold(k) =>
      // code other than acquiresleep leaves; sleep, in acquiresleep or elsewhere; wake
      || (k >= |s.free| && m == Give(CondLock(k), Idle))
      || (if k < |s.free| then !s.free[k] && m == Take(ProcLock(p), SleepHold(CondLock(k), CondChan(k, 0)))
          else m.Take? && m.l == ProcLock(p) && m.to.SleepHold? && m.to.lk == CondLock(k)
               && ChanUnder(CondLock(k), m.to.ch))
      || (k >= |s.free| && m.Stay? && m.to.Waking? && m.to == Waking(m.to.ch, 0, Resumed(k))
          && ChanUnder(CondLock(k), m.to.ch))
    case AskHold(k) => m == Give(CondLock(k), Idle)
    case SleepHold(lk, ch) => m == Give(lk, Falling(lk, ch))
    case Woken(lk) =>
      || m == Take(lk, if lk.CondLock? then CondHold(lk.k) else WaitScan(0, false))
      || m == Take(ProcLock(p), YieldHold(Woken(lk)))
    case Waking(ch, i, cont) =>
      if i >= n then
        match cont {
          case ReleaseCond(k) => m == Give(CondLock(k), Idle)
          case Resumed(k) => m == Stay(CondHold(k))
          case Reparented(j) => m == Stay(ExitScan(j + 1))
          case ParentWoken => m == Stay(ExitReady)
        }
      else if i == p then m == Stay(Waking(ch, i + 1, cont))
      else m == Take(ProcLock(i), WakeHold(ch, i, cont))
    case WaitScan(i, kids) =>
      if i < n then
        if s.parent[i] == p then m == Take(ProcLock(i), WaitHold(i, kids)) else m == Stay(WaitScan(i + 1, kids))
      else
        // no children, or killed; or sleep
        if kids && !s.killed[p] then m == Take(ProcLock(p), SleepHold(WaitLock, ProcChan(p)))
        else m == Give(WaitLock, Idle)
    case WaitHold(i, kids) =>
      i < n && if s.st[i] == ZOMBIE
               then m == Give(ProcLock(i), WaitDone(false))       // the copyout of the exit status failed
               else m == Give(ProcLock(i), WaitScan(i + 1, true))
    case WaitDone(_) => m == Give(WaitLock, Idle)
    case KillHold(q) => m == Give(ProcLock(q), Idle)             // not the process to kill
    case ExitScan(i) =>
      if i < n then s.parent[i] != p && m == Stay(ExitScan(i + 1))
      else m == Stay(Waking(ProcChan(s.parent[p]), 0, ParentWoken))
    case ExitReady => m == Take(ProcLock(p), ExitHold)
    case ExitZombie => m == Give(WaitLock, Sched(Never))
    case ForkLook(q) => q < n && s.st[q] != UNUSED && m == Give(ProcLock(q), Idle)
    case ForkFill(q) => m == Give(ProcLock(q), ForkParent(q))
    case ForkParent(q) => m == Take(ProcLock(p), YieldHold(ForkParent(q)))
    case ForkWait(q) => m == Give(WaitLock, ForkRun(q))
    case ForkRun(q) => m == Take(ProcLock(q), ForkSet(q)) || m == Take(ProcLock(p), YieldHold(ForkRun(q)))
    case _ => false
  }

  predicate Made(s: State, s': State, c: nat, p: nat, m: Move)
    requires HasCpu(s, c) && p < |s.pc|
  {
    match m
    case Take(l, to) => l !in s.locks && s' == Goto(Acquire(s, c, l), p, to)
    case Give(l, to) => s' == Goto(Release(s, c, l), p, to)
    case Stay(to) => s' == Goto(s, p, to)
  }

  ghost predicate MoveStep(s: State, s': State, c: nat, p: nat)
    requires Shape(s)
  {
    && c < |s.ctl| && s.ctl[c] == Run(p) && p < |s.pc|
    && exists m :: Moves(s, p, m) && Made(s, s', c, p, m)
  }

  // ---- moves that change shared fields, all under the lock that protects them ----

  /** releasesleep: take the lock, mark it unlocked, start wakeup. */
  predicate Unlocks(s: State, s': State, c: nat, p: nat, k: nat)
    requires Shape(s) && c < |s.ctl| && p < |s.pc|
  {
    && k < |s.free| && CondLock(k) !in s.locks && !s.free[k] && s.lockedBy[k] == p && k in s.refs[p]
    && s' == Goto(Acquire(s, c, CondLock(k)), p, Waking(CondChan(k, 0), 0, ReleaseCond(k))).(free := s.free[k := true])
  }

  function Restored(s: State, c: nat, p: nat): State
    requires Shape(s) && c < |s.ctl| && p < |s.pc| && s.pc[p].Resume?
  {
    if s.pc[p].next.Forkret? then s else s.(intena := s.intena[c := s.saved[p]])
  }

  ghost predicate Writes(s: State, s': State, c: nat, p: nat)
    requires Shape(s) && c < |s.ctl| && p < |s.pc|
  {
    var n := |s.pc|;
    match s.pc[p]
    case Idle =>
      exists k: nat :: Unlocks(s, s', c, p, k)
    case CondHold(k) =>
      && k < |s.free| && s.free[k]
      && s' == Goto(Release(s, c, CondLock(k)), p, Idle).(free := s.free[k := false], lockedBy := s.lockedBy[k := p])
    case YieldHold(back) => s' == Goto(s, p, Sched(Back(back))).(st := s.st[p := RUNNABLE])
    case Falling(lk, ch) => s' == Goto(s, p, Sched(Reacquire(lk))).(st := s.st[p := SLEEPING], chan := s.chan[p := ch])
    case Resume(next) =>
      // the end of sched() restores intena; a new process starts in forkret instead
      && !next.Never?
      && s' == Goto(Release(Restored(s, c, p), c, ProcLock(p)), p,
      if next.Back? then next.pc else if next.Forkret? then Idle else Woken(next.lk))
      .(chan := if next.Reacquire? then s.chan[p := NoChan] else s.chan)
    case WakeHold(ch, i, cont) =>
      i < n && s' == Goto(Release(s, c, ProcLock(i)), p, Waking(ch, i + 1, cont))
      .(st := if s.st[i] == SLEEPING && s.chan[i] == ch then s.st[i := RUNNABLE] else s.st)
    case KillHold(q) =>
      q < n && s' == Goto(Release(s, c, ProcLock(q)), p, Idle)
      .(st := if s.st[q] == SLEEPING then s.st[q := RUNNABLE] else s.st, killed := s.killed[q := true])
    case WaitHold(i, _) =>
      // freeproc
      i < n && s.st[i] == ZOMBIE && s' == Goto(Release(s, c, ProcLock(i)), p, WaitDone(true))
      .(st := s.st[i := UNUSED], parent := s.parent[i := -1], chan := s.chan[i := NoChan],
        killed := s.killed[i := false])
    case ExitScan(i) =>
      i < n && s.parent[i] == p && s' ==
          Goto(s, p, Waking(ProcChan(INIT), 0, Reparented(i))).(parent := s.parent[i := INIT])
    case ExitHold => s' == Goto(s, p, ExitZombie).(st := s.st[p := ZOMBIE])
    case ForkLook(q) => q < n && s.st[q] == UNUSED && s' == Goto(s, p, ForkFill(q)).(st := s.st[q := USED])
    case ForkFill(q) =>
      // out of memory: freeproc
      q < n && s' == Goto(Release(s, c, ProcLock(q)), p, Idle)
      .(st := s.st[q := UNUSED], parent := s.parent[q := -1], killed := s.killed[q := false])
    case ForkParent(q) =>
      q < n && WaitLock !in s.locks && s' == Goto(Acquire(s, c, WaitLock), p, ForkWait(q)).(parent := s.parent[q := p])
    case ForkSet(q) =>
      q < n && q != p && s' ==
          Goto(Goto(Release(s, c, ProcLock(q)), p, Idle), q, Resume(Forkret)).(st := s.st[q := RUNNABLE])
    case _ => false
  }

  ghost predicate WriteStep(s: State, s': State, c: nat, p: nat)
    requires Shape(s)
  {
    c < |s.ctl| && s.ctl[c] == Run(p) && p < |s.pc| && Writes(s, s', c, p)
  }

  // ---- the scheduler ----

  predicate Pick(s: State, s': State, c: nat, p: nat) {
    && HasCpu(s, c) && s.ctl[c] == Looking && p < |s.pc| && ProcLock(p) !in s.locks
    && s' == Acquire(s, c, ProcLock(p)).(ctl := s.ctl[c := Picked(p)])
  }

  predicate SwitchIn(s: State, s': State, c: nat, p: nat) {
    && c < |s.ctl| && s.ctl[c] == Picked(p) && p < |s.st| && s.st[p] == RUNNABLE
    && s' == s.(st := s.st[p := RUNNING], ctl := s.ctl[c := Run(p)])
  }

  predicate Skip(s: State, s': State, c: nat, p: nat) {
    && HasCpu(s, c) && s.ctl[c] == Picked(p) && p < |s.st| && s.st[p] != RUNNABLE
    && s' == Release(s, c, ProcLock(p)).(ctl := s.ctl[c := Looking])
  }

  /** sched(): back to this CPU's scheduler, with p->lock held and intena remembered. */
  predicate SwitchOut(s: State, s': State, c: nat, p: nat) {
    && HasCpu(s, c) && s.ctl[c] == Run(p) && p < |s.pc| == |s.saved| && s.pc[p].Sched?
    && s' == Goto(s, p, Resume(s.pc[p].next)).(ctl := s.ctl[c := Returned(p)], saved := s.saved[p := s.intena[c]])
  }

  predicate LetGo(s: State, s': State, c: nat, p: nat) {
    && HasCpu(s, c) && s.ctl[c] == Returned(p)
    && s' == Release(s, c, ProcLock(p)).(ctl := s.ctl[c := Looking])
  }

  /**
   Code that holds no spinlock may turn interrupts on or off: the scheduler's intr_on, traps and returns
   from them.
   */
  predicate Toggle(s: State, s': State, c: nat) {
    HasCpu(s, c) && s.noff[c] == 0 && s' == s.(intr := s.intr[c := !s.intr[c]])
  }

  ghost predicate SchedulerStep(s: State, s': State, c: nat, p: nat) {
    Pick(s, s', c, p) || SwitchIn(s, s', c, p) || Skip(s, s', c, p) || SwitchOut(s, s', c, p) || LetGo(s, s', c, p)
  }

  /** One step of CPU c, where it concerns process p. */
  ghost predicate Step(s: State, s': State, c: nat, p: nat)
    requires Shape(s)
  {
    MoveStep(s, s', c, p) || WriteStep(s, s', c, p) || SchedulerStep(s, s', c, p)
  }

  // ---- nested locks ----

  /** Code that may take one of the inner locks. */
  predicate Outer(pc: Pc) {
    pc.Idle? || pc.CondHold? || pc.WaitHold? || pc.ForkLook? || pc.ForkFill?
  }

  /**
   Where it does: anywhere without a lock; log_write and consoleintr under their own; wait's freeproc;
   allocproc's allocpid; and fork, which allocates and duplicates under the child's lock.
   */
  predicate Nests(s: State, p: nat)
    requires Shape(s) && p < |s.pc|
  {
    match s.pc[p]
    case Idle => true
    case CondHold(k) => k >= |s.free|
    case WaitHold(i, _) => i < |s.st| && s.st[i] == ZOMBIE
    case ForkLook(q) => q < |s.st| && s.st[q] == UNUSED
    case ForkFill(_) => true
    case _ => false
  }

  predicate Enter(s: State, s': State, c: nat, p: nat, j: nat)
    requires Shape(s) && c < |s.ctl| && p < |s.pc|
  {
    Nests(s, p) && InnerLock(j) !in s.locks && s' == Goto(Acquire(s, c, InnerLock(j)), p, Inner(s.pc[p], j))
  }

  predicate Leave(s: State, s': State, c: nat, p: nat)
    requires Shape(s) && c < |s.ctl| && p < |s.pc|
  {
    s.pc[p].Inner? && s' == Goto(Release(s, c, InnerLock(s.pc[p].j)), p, s.pc[p].back)
  }

  /** iput's test, ip->ref == 1: nobody else has a reference to k. Its callers have unlocked the inode. */
  predicate LastRef(s: State, p: nat, k: nat)
    requires Shape(s) && p < |s.pc|
  {
    && k < |s.free| && k < NINODE && k in s.refs[p] && (s.free[k] || s.lockedBy[k] != p)
    && forall q :: 0 <= q < |s.refs| && q != p ==> k !in s.refs[q]
  }

  /** iput, holding itable.lock, calls acquiresleep. */
  predicate IputTake(s: State, s': State, c: nat, p: nat, k: nat)
    requires Shape(s) && c < |s.ctl| && p < |s.pc|
  {
    && s.pc[p] == Inner(Idle, ITABLE) && LastRef(s, p, k) && CondLock(k) !in s.locks
    && s' == Goto(Acquire(s, c, CondLock(k)), p, IputLock(k))
  }

  predicate IputGot(s: State, s': State, c: nat, p: nat)
    requires Shape(s) && c < |s.ctl| && p < |s.pc|
  {
    && s.pc[p].IputLock? && s.pc[p].k < |s.free| && s.free[s.pc[p].k]
    && var k := s.pc[p].k;
    s' == Goto(Release(s, c, CondLock(k)), p, Inner(Idle, ITABLE)).(
        free := s.free[k := false], lockedBy := s.lockedBy[k := p])
  }

  ghost predicate NestStep(s: State, s': State, c: nat, p: nat)
    requires Shape(s)
  {
    && c < |s.ctl| && s.ctl[c] == Run(p) && p < |s.pc|
    && (|| (exists j: nat :: Enter(s, s', c, p, j)) || Leave(s, s', c, p)
        || (exists k: nat :: IputTake(s, s', c, p, k)) || IputGot(s, s', c, p))
  }

  /** The lock that guards the references to k. */
  function Table(k: nat): nat { if k < NINODE then ITABLE else BCACHE }

  /** iget or bget. */
  predicate GetsRef(s: State, s': State, p: nat, k: nat)
    requires Shape(s) && p < |s.pc|
  {
    s.pc[p] == Inner(Idle, Table(k)) && s' == s.(refs := s.refs[p := s.refs[p] + {k}])
  }

  /** fork gives the child what the parent has, by filedup and idup. */
  predicate SharesRef(s: State, s': State, p: nat, k: nat)
    requires Shape(s) && p < |s.pc|
  {
    && s.pc[p].Inner? && s.pc[p].back.ForkFill? && s.pc[p].back.q < |s.refs| && k in s.refs[p]
    && s' == s.(refs := s.refs[s.pc[p].back.q := s.refs[s.pc[p].back.q] + {k}])
  }

  /** iput, brelse, or the close of a file that others still have open. */
  predicate PutsRef(s: State, s': State, p: nat, k: nat)
    requires Shape(s) && p < |s.pc|
  {
    && s.pc[p].Inner? && s.pc[p].back.Idle? && (k < |s.free| ==> s.free[k] || s.lockedBy[k] != p)
    && s' == s.(refs := s.refs[p := s.refs[p] - {k}])
  }

  ghost predicate RefStep(s: State, s': State, c: nat, p: nat)
    requires Shape(s)
  {
    && c < |s.ctl| && s.ctl[c] == Run(p) && p < |s.pc|
    && exists k: nat :: GetsRef(s, s', p, k) || SharesRef(s, s', p, k) || PutsRef(s, s', p, k)
  }

  ghost predicate Next(s: State, s': State) {
    && Shape(s)
    && (|| (exists c: nat, p: nat :: Step(s, s', c, p)) || (exists c: nat, p: nat :: NestStep(s, s', c, p))
        || (exists c: nat, p: nat :: RefStep(s, s', c, p)) || (exists c: nat :: Toggle(s, s', c)))
  }

  /** Boot: init is runnable, no lock is held, every CPU is in its scheduler. */
  predicate Init(s: State) {
    && Shape(s) && s.locks == map[]
    && (forall p :: 0 <= p < |s.st| ==>
          s.st[p] == (if p == INIT then RUNNABLE else UNUSED) && s.chan[p] == NoChan && s.parent[p] == -1
          && s.pc[p] == Resume(Forkret) && s.refs[p] == {} && !s.killed[p])
    && (forall k :: 0 <= k < |s.free| ==> s.free[k])
    && (forall c :: 0 <= c < |s.ctl| ==> s.ctl[c] == Looking && s.noff[c] == 0)
  }

  // ---- invariant: locks ----

  predicate PcOk(pc: Pc, n: nat) {
    match pc
    case SleepHold(lk, ch) => ChanUnder(lk, ch)
    case Falling(lk, ch) => ChanUnder(lk, ch)
    case Waking(ch, _, cont) => ChanUnder(LockOf(cont), ch)
    case WakeHold(ch, _, cont) => ChanUnder(LockOf(cont), ch)
    case Woken(lk) => lk.CondLock? || lk.WaitLock?
    case Sched(Reacquire(lk)) => lk.CondLock? || lk.WaitLock?
    case Resume(Reacquire(lk)) => lk.CondLock? || lk.WaitLock?
    case Inner(back, _) => Outer(back)
    case Sched(Back(b)) => Holds(b, 0) == {} && PcOk(b, n)
    case Resume(Back(b)) => Holds(b, 0) == {} && PcOk(b, n)
    case YieldHold(b) => Holds(b, 0) == {} && PcOk(b, n)
    case _ => true
  }

  /** Each CPU owns exactly the locks its control state calls for, and noff counts them. */
  ghost predicate HeldOk(s: State) {
    && |s.noff| == |s.ctl|
    && (forall c: nat, l :: c < |s.ctl| && l in HeldBy(s, c) ==> l in s.locks && s.locks[l] == c)
    && (forall l :: l in s.locks ==> s.locks[l] < |s.ctl| && l in HeldBy(s, s.locks[l]))
    && (forall c: nat :: c < |s.ctl| ==> s.noff[c] == |HeldBy(s, c)|)
  }

  /** The process CPU c is concerned with, if any. */
  function Subject(x: Ctl): int {
    match x case Looking => -1 case Picked(p) => p case Run(p) => p case Returned(p) => p
  }

  ghost predicate CtlOk(s: State) {
    && (forall c: nat :: c < |s.ctl| ==> Subject(s.ctl[c]) < |s.pc|)
    && (forall c: nat, d: nat :: c < |s.ctl| && d < |s.ctl| && c != d && s.ctl[c].Run? ==> s.ctl[d] != s.ctl[c])
  }

  ghost predicate PcsOk(s: State) {
    forall p :: 0 <= p < |s.pc| ==> PcOk(s.pc[p], |s.pc|)
  }

  ghost predicate LocksOk(s: State) {
    Shape(s) && PcsOk(s) && HeldOk(s) && CtlOk(s)
  }

  /** All CPUs but c hold in t what they held in s. */
  ghost predicate Aside(s: State, t: State, c: nat) {
    |t.ctl| == |s.ctl| && |t.noff| == |t.ctl| && forall d: nat :: d < |s.ctl| && d != c ==> HeldBy(t, d) == HeldBy(s, d)
  }

  lemma TakeKeepsHeld(s: State, t: State, c: nat, l: Lock)
    requires HeldOk(s) && c < |s.ctl| && Aside(s, t, c)
    requires l !in s.locks && t.locks == s.locks[l := c] && t.noff == s.noff[c := s.noff[c] + 1]
    requires HeldBy(t, c) == HeldBy(s, c) + {l}
    ensures HeldOk(t)
  {
    hide HeldBy;
    assert l !in HeldBy(s, c);
  }

  lemma GiveKeepsHeld(s: State, t: State, c: nat, l: Lock)
    requires HeldOk(s) && c < |s.ctl| && Aside(s, t, c)
    requires l in HeldBy(s, c) && t.locks == s.locks - {l} && t.noff == s.noff[c := s.noff[c] - 1]
    requires HeldBy(t, c) == HeldBy(s, c) - {l}
    ensures HeldOk(t)
  {
    hide HeldBy;
    assert s.locks[l] == c;
    assert HeldBy(s, c) == HeldBy(t, c) + {l} && l !in HeldBy(t, c);
    forall d: nat, k | d < |t.ctl| && k in HeldBy(t, d) ensures k in t.locks && t.locks[k] == d {
      if d != c { assert k in HeldBy(s, d); }
    }
    forall k | k in t.locks ensures t.locks[k] < |t.ctl| && k in HeldBy(t, t.locks[k]) {
      assert k in s.locks && k != l;
    }
  }

  lemma SameKeepsHeld(s: State, t: State, c: nat)
    requires HeldOk(s) && c < |s.ctl| && Aside(s, t, c) && HeldBy(t, c) == HeldBy(s, c)
    requires t.locks == s.locks && t.noff == s.noff
    ensures HeldOk(t)
  {
    hide HeldBy;
  }

  /** No CPU runs q. */
  ghost predicate Off(s: State, q: nat) {
    forall d: nat :: d < |s.ctl| ==> s.ctl[d] != Run(q)
  }

  /** When the process on CPU c moves, the other CPUs hold what they held. */
  lemma OthersAside(s: State, t: State, c: nat, p: nat)
    requires CtlOk(s) && |s.noff| == |s.ctl| == |t.noff| && |t.pc| == |s.pc| && c < |s.ctl| && s.ctl[c] == Run(p)
    requires t.ctl == s.ctl && (forall q :: 0 <= q < |s.pc| && q != p ==> t.pc[q] == s.pc[q] || Off(s, q))
    ensures Aside(s, t, c)
  {
  }

  lemma MoveKeepsLocks(s: State, s': State, c: nat, p: nat)
    requires LocksOk(s) && MoveStep(s, s', c, p)
    ensures LocksOk(s')
  {
    hide HeldOk, Aside, Moves, PcOk, Holds;
    var m :| Moves(s, p, m) && Made(s, s', c, p, m);
    OthersAside(s, s', c, p);
    MoveHolds(s, p, m);
    match m
    case Take(l, to) => TakeKeepsHeld(s, s', c, l);
    case Give(l, to) => GiveKeepsHeld(s, s', c, l);
    case Stay(to) => SameKeepsHeld(s, s', c);
  }

  /** Every move in the table takes or gives exactly the lock it says. */
  lemma MoveHolds(s: State, p: nat, m: Move)
    requires Shape(s) && p < |s.pc| && PcOk(s.pc[p], |s.pc|) && Moves(s, p, m)
    ensures PcOk(m.to, |s.pc|)
    ensures m.Take? ==> m.l !in Holds(s.pc[p], p) && Holds(m.to, p) == Holds(s.pc[p], p) + {m.l}
    ensures m.Give? ==> m.l in Holds(s.pc[p], p) && Holds(m.to, p) == Holds(s.pc[p], p) - {m.l}
    ensures m.Stay? ==> Holds(m.to, p) == Holds(s.pc[p], p)
  {
  }

  /** Mutual exclusion: no lock is held on two CPUs. */
  lemma OneHolder(s: State, c: nat, d: nat, l: Lock)
    requires HeldOk(s) && c < |s.ctl| && d < |s.ctl| && l in HeldBy(s, c) && l in HeldBy(s, d)
    ensures c == d
  {
    hide HeldBy;
    assert l in s.locks && s.locks[l] == c;
    assert s.locks[l] == d;
  }

  /** Where a write leaves process p, and the lock it takes or gives on the way. */
  lemma WriteKeepsLocks(s: State, s': State, c: nat, p: nat)
    requires LocksOk(s) && WriteStep(s, s', c, p) && !s.pc[p].ForkSet?
    ensures LocksOk(s')
  {
    hide HeldOk, Aside;
    match s.pc[p]
    case WakeHold(ch, i, cont) => OthersAside(s, s', c, p); GiveKeepsHeld(s, s', c, ProcLock(i));
    case KillHold(q) => OthersAside(s, s', c, p); GiveKeepsHeld(s, s', c, ProcLock(q));
    case WaitHold(i, _) => OthersAside(s, s', c, p); GiveKeepsHeld(s, s', c, ProcLock(i));
    case ForkFill(q) => OthersAside(s, s', c, p); GiveKeepsHeld(s, s', c, ProcLock(q));
    case _ => WriteSelfKeepsLocks(s, s', c, p);
  }

  lemma WriteSelfKeepsLocks(s: State, s': State, c: nat, p: nat)
    requires LocksOk(s) && WriteStep(s, s', c, p)
    requires !(s.pc[p].WakeHold? || s.pc[p].KillHold? || s.pc[p].WaitHold? || s.pc[p].ForkFill? || s.pc[p].ForkSet?)
    ensures LocksOk(s')
  {
    hide HeldOk, Aside;
    match s.pc[p]
    case Idle =>
      OthersAside(s, s', c, p);
      var k: nat :| Unlocks(s, s', c, p, k);
      TakeKeepsHeld(s, s', c, CondLock(k));
    case ForkParent(q) => OthersAside(s, s', c, p); TakeKeepsHeld(s, s', c, WaitLock);
    case CondHold(k) => OthersAside(s, s', c, p); GiveKeepsHeld(s, s', c, CondLock(k));
    case Resume(next) => ResumeKeepsLocks(s, s', c, p);
    case _ => WriteSameKeepsLocks(s, s', c, p);
  }

  lemma ResumeKeepsLocks(s: State, s': State, c: nat, p: nat)
    requires LocksOk(s) && WriteStep(s, s', c, p) && s.pc[p].Resume?
    ensures LocksOk(s')
  {
    hide HeldOk, Aside;
    OthersAside(s, s', c, p);
    GiveKeepsHeld(s, s', c, ProcLock(p));
  }

  lemma WriteSameKeepsLocks(s: State, s': State, c: nat, p: nat)
    requires LocksOk(s) && WriteStep(s, s', c, p)
    requires s.pc[p].YieldHold? || s.pc[p].Falling? || s.pc[p].ExitScan? || s.pc[p].ExitHold? || s.pc[p].ForkLook?
    ensures LocksOk(s')
  {
    hide HeldOk, Aside;
    OthersAside(s, s', c, p);
    SameKeepsHeld(s, s', c);
  }

  // ---- invariant: who runs ----

  /**
   A process on a CPU is RUNNING unless it is on its way out with its own lock held; one that has
   just been switched out is not; and every RUNNING process is on a CPU.
   */
  ghost predicate RunOk(s: State) {
    && Shape(s)
    && (forall c: nat :: c < |s.ctl| && s.ctl[c].Run? && s.ctl[c].p < |s.pc| ==>
          (s.st[s.ctl[c].p] == RUNNING <==> !(s.pc[s.ctl[c].p].Sched? || s.pc[s.ctl[c].p].ExitZombie?)))
    && (forall c: nat :: c < |s.ctl| && s.ctl[c].Returned? && s.ctl[c].p < |s.pc| ==>
          s.st[s.ctl[c].p] != RUNNING && s.pc[s.ctl[c].p].Resume?)
    && (forall p: nat :: p < |s.st| && (s.st[p] == RUNNING || !s.pc[p].Resume?) ==>
        exists c: nat :: c < |s.ctl| && s.ctl[c] == Run(p))
    && (forall p: nat :: p < |s.st| && (s.st[p] == RUNNABLE || s.st[p] == SLEEPING)
                         && (s.pc[p].Resume? || s.pc[p].Sched?) ==>
          !s.pc[p].next.Never?)
    && (forall p: nat :: p < |s.st| && s.pc[p].ExitZombie? ==> s.st[p] == ZOMBIE)
  }

  /** Whoever holds a process's lock is the only CPU concerned with it, save one running it unlocked. */
  lemma LockedElsewhere(s: State, c: nat, q: nat, d: nat)
    requires LocksOk(s) && c < |s.ctl| && ProcLock(q) in HeldBy(s, c) && d < |s.ctl| && d != c
    ensures s.ctl[d] != Returned(q) && s.ctl[d] != Picked(q)
    ensures s.ctl[d] == Run(q) ==> q < |s.pc| && ProcLock(q) !in Holds(s.pc[q], q)
  {
    if ProcLock(q) in HeldBy(s, d) { OneHolder(s, c, d, ProcLock(q)); }
  }

  /** A process that is not RUNNING, and whose lock c holds from outside, is on no CPU. */
  lemma LockedAndOff(s: State, c: nat, p: nat, q: nat)
    requires LocksOk(s) && RunOk(s) && c < |s.ctl| && s.ctl[c] == Run(p) && q != p
    requires q < |s.pc| && ProcLock(q) in HeldBy(s, c) && s.st[q] != RUNNING
    ensures Off(s, q) && s.pc[q].Resume?
    ensures forall d: nat :: d < |s.ctl| ==> s.ctl[d] != Returned(q) && s.ctl[d] != Picked(q)
  {
    forall d: nat | d < |s.ctl| ensures s.ctl[d] != Run(q) && s.ctl[d] != Returned(q) && s.ctl[d] != Picked(q) {
      if d != c {
        LockedElsewhere(s, c, q, d);
      }
    }
  }

  lemma MoveTo(s: State, p: nat, m: Move)
    requires Shape(s) && p < |s.pc| && Moves(s, p, m)
    ensures !m.to.Resume? && !s.pc[p].Resume? && !s.pc[p].Sched?
    ensures m.to.Sched? <==> s.pc[p].ExitZombie?
    ensures !m.to.ExitZombie?
  {
  }

  /** A write that leaves every state alone and does not enter or leave the scheduler. */
  lemma QuietKeepsRun(s: State, t: State, c: nat, p: nat)
    requires RunOk(s) && c < |s.ctl| && s.ctl[c] == Run(p) && p < |s.pc| && Shape(t)
    requires t.st == s.st && t.ctl == s.ctl && |t.pc| == |s.pc|
    requires forall q :: 0 <= q < |s.pc| && q != p ==> t.pc[q] == s.pc[q]
    requires !s.pc[p].Sched? && !s.pc[p].ExitZombie? && !t.pc[p].Sched? && !t.pc[p].ExitZombie? && !t.pc[p].Resume?
    ensures RunOk(t)
  {
    forall q: nat | q < |t.st| && (t.st[q] == RUNNING || !t.pc[q].Resume?)
      ensures exists d: nat :: d < |t.ctl| && t.ctl[d] == Run(q)
    {
      if q == p { assert t.ctl[c] == Run(p); }
    }
  }

  /** A process leaves its own RUNNING state, with its lock held. */
  lemma LeavingKeepsRun(s: State, t: State, c: nat, p: nat)
    requires RunOk(s) && CtlOk(s) && c < |s.ctl| && s.ctl[c] == Run(p) && p < |s.pc| && Shape(t)
    requires |t.pc| == |s.pc| && t.st == s.st[p := t.st[p]] && t.st[p] != RUNNING && t.ctl == s.ctl
    requires forall q :: 0 <= q < |s.pc| && q != p ==> t.pc[q] == s.pc[q]
    requires if t.st[p] == ZOMBIE then t.pc[p].ExitZombie? || t.pc[p] == Sched(Never)
             else t.pc[p].Sched? && !t.pc[p].next.Never?
    requires forall d: nat :: d < |s.ctl| ==> s.ctl[d] != Returned(p)
    ensures RunOk(t)
  {
    forall q: nat | q < |t.st| && (t.st[q] == RUNNING || !t.pc[q].Resume?)
      ensures exists d: nat :: d < |t.ctl| && t.ctl[d] == Run(q)
    {
      if q == p { assert t.ctl[c] == Run(p); }
    }
  }

  /** A process that is on no CPU gets another state, by whoever holds its lock. */
  lemma OtherKeepsRun(s: State, t: State, c: nat, p: nat, q: nat)
    requires RunOk(s) && c < |s.ctl| && s.ctl[c] == Run(p) && p < |s.pc| && q < |s.pc| && q != p && Shape(t)
    requires t.ctl == s.ctl && |t.pc| == |s.pc| && t.st == s.st[q := t.st[q]]
    requires forall r :: 0 <= r < |s.pc| && r != p && r != q ==> t.pc[r] == s.pc[r]
    requires !s.pc[p].Sched? && !s.pc[p].ExitZombie? && !t.pc[p].Sched? && !t.pc[p].ExitZombie? && !t.pc[p].Resume?
    requires s.st[q] != RUNNING && t.st[q] != RUNNING && Off(s, q) && t.pc[q].Resume?
    requires t.st[q] == RUNNABLE || t.st[q] == SLEEPING ==> !t.pc[q].next.Never?
    ensures RunOk(t)
  {
    forall r: nat | r < |t.st| && (t.st[r] == RUNNING || !t.pc[r].Resume?)
      ensures exists d: nat :: d < |t.ctl| && t.ctl[d] == Run(r)
    {
      if r == p { assert t.ctl[c] == Run(p); }
    }
  }

  /** A lock held at pc, if any is. */
  function SomeLock(pc: Pc): Lock {
    match pc
    case CondHold(k) => CondLock(k)
    case AskHold(k) => CondLock(k)
    case SleepHold(lk, _) => lk
    case Waking(_, _, cont) => LockOf(cont)
    case WakeHold(_, _, cont) => LockOf(cont)
    case KillHold(q) => ProcLock(q)
    case ForkLook(q) => ProcLock(q)
    case ForkFill(q) => ProcLock(q)
    case ForkSet(q) => ProcLock(q)
    case YieldHold(_) => ProcLock(0)
    case Sched(_) => ProcLock(0)
    case Resume(_) => ProcLock(0)
    case Falling(_, _) => ProcLock(0)
    case Inner(_, j) => InnerLock(j)
    case IputLock(_) => InnerLock(ITABLE)
    case _ => WaitLock
  }

  lemma HoldsSome(pc: Pc)
    ensures pc.Idle? || pc.Woken? || pc.ForkParent? || pc.ForkRun? || SomeLock(pc) in Holds(pc, 0)
  {
  }

  /** The pc stored by yield is one of those that hold no lock. */
  lemma BackIsPlain(b: Pc)
    requires Holds(b, 0) == {}
    ensures b.Idle? || b.Woken? || b.ForkParent? || b.ForkRun?
  {
    HoldsSome(b);
  }

  // ---- invariant: fork ----

  /** The process being created by a fork that is under way, or -1. */
  function Target(pc: Pc): int {
    match pc
    case ForkFill(q) => q
    case ForkParent(q) => q
    case ForkWait(q) => q
    case ForkRun(q) => q
    case ForkSet(q) => q
    case YieldHold(b) => Target(b)
    case Sched(Back(b)) => Target(b)
    case Resume(Back(b)) => Target(b)
    case Inner(b, _) => Target(b)
    case _ => -1
  }

  /** A process being created is USED, and created by one parent only. */
  ghost predicate ForkOk(s: State) {
    && Shape(s)
    && (forall p: nat :: p < |s.pc| && Target(s.pc[p]) >= 0 ==>
          Target(s.pc[p]) < |s.st| && Target(s.pc[p]) != p && s.st[Target(s.pc[p])] == USED)
    && (forall p: nat, r: nat :: p < |s.pc| && r < |s.pc| && p != r && Target(s.pc[p]) >= 0 ==>
          Target(s.pc[p]) != Target(s.pc[r]))
  }

  lemma MoveKeepsRun(s: State, s': State, c: nat, p: nat)
    requires LocksOk(s) && RunOk(s) && MoveStep(s, s', c, p)
    ensures RunOk(s')
  {
    hide RunOk, HeldOk, Moves;
    var m :| Moves(s, p, m) && Made(s, s', c, p, m);
    MoveTo(s, p, m);
    if s.pc[p].ExitZombie? {
      OwnLockHere(s, c, p);
      ZombieNow(s, p);
      assert m.to == Sched(Never) by { ZombieMove(s, p, m); }
      LeavingKeepsRun(s, s', c, p);
    } else {
      QuietKeepsRun(s, s', c, p);
    }
  }

  lemma ZombieMove(s: State, p: nat, m: Move)
    requires Shape(s) && p < |s.pc| && Moves(s, p, m) && s.pc[p].ExitZombie?
    ensures m.to == Sched(Never)
  {
  }

  lemma ZombieNow(s: State, p: nat)
    requires RunOk(s) && p < |s.pc| && s.pc[p].ExitZombie?
    ensures s.st[p] == ZOMBIE
  {
  }

  lemma RunningNow(s: State, c: nat, p: nat)
    requires RunOk(s) && c < |s.ctl| && s.ctl[c] == Run(p) && p < |s.pc| && !s.pc[p].Sched? && !s.pc[p].ExitZombie?
    ensures s.st[p] == RUNNING
  {
  }

  lemma SleeperNext(s: State, q: nat)
    requires RunOk(s) && q < |s.st| && s.st[q] == SLEEPING && s.pc[q].Resume?
    ensures !s.pc[q].next.Never?
  {
  }

  /** A write by p, holding q's lock, to the state of a process q that is not RUNNING. */
  lemma WriteOther(s: State, t: State, c: nat, p: nat, q: nat)
    requires LocksOk(s) && RunOk(s) && c < |s.ctl| && s.ctl[c] == Run(p) && p < |s.pc| && Shape(t)
    requires q < |s.pc| && q != p && ProcLock(q) in Holds(s.pc[p], p) && t.ctl == s.ctl && |t.pc| == |s.pc|
    requires t.st == s.st[q := t.st[q]] && s.st[q] != RUNNING && t.st[q] != RUNNING
    requires s.st[q] == SLEEPING || t.st[q] != RUNNABLE || t.pc[q] == Resume(Forkret)
    requires !s.pc[p].Sched? && !s.pc[p].ExitZombie? && !t.pc[p].Sched? && !t.pc[p].ExitZombie? && !t.pc[p].Resume?
    requires t.st[q] != SLEEPING && (t.pc[q] == s.pc[q] || t.pc[q] == Resume(Forkret))
    requires forall r :: 0 <= r < |s.pc| && r != p && r != q ==> t.pc[r] == s.pc[r]
    ensures RunOk(t)
  {
    hide RunOk, HeldOk, CtlOk, Off;
    LockedAndOff(s, c, p, q);
    if s.st[q] == SLEEPING { SleeperNext(s, q); }
    OtherKeepsRun(s, t, c, p, q);
  }

  lemma WriteKeepsRun(s: State, s': State, c: nat, p: nat)
    requires LocksOk(s) && RunOk(s) && ForkOk(s) && WriteStep(s, s', c, p)
    ensures RunOk(s')
  {
    hide RunOk, HeldOk, CtlOk, PcsOk, ForkOk;
    match s.pc[p]
    case WakeHold(ch, i, cont) =>
      RunningNow(s, c, p);
      if s.st[i] == SLEEPING && s.chan[i] == ch { WriteOther(s, s', c, p, i); } else { QuietKeepsRun(s, s', c, p); }
    case KillHold(i) =>
      RunningNow(s, c, p);
      if s.st[i] == SLEEPING { WriteOther(s, s', c, p, i); } else { QuietKeepsRun(s, s', c, p); }
    case WaitHold(i, _) => WriteChildKeepsRun(s, s', c, p);
    case ForkLook(i) => WriteChildKeepsRun(s, s', c, p);
    case ForkFill(i) => WriteChildKeepsRun(s, s', c, p);
    case ForkSet(i) => WriteChildKeepsRun(s, s', c, p);
    case _ => WriteSelfKeepsRun(s, s', c, p);
  }

  lemma WriteChildKeepsRun(s: State, s': State, c: nat, p: nat)
    requires LocksOk(s) && RunOk(s) && ForkOk(s) && WriteStep(s, s', c, p)
    requires s.pc[p].WaitHold? || s.pc[p].ForkLook? || s.pc[p].ForkFill? || s.pc[p].ForkSet?
    ensures RunOk(s')
  {
    hide RunOk, HeldOk, CtlOk, PcsOk, ForkOk;
    RunningNow(s, c, p);
    match s.pc[p]
    case WaitHold(i, _) => WriteOther(s, s', c, p, i);
    case ForkLook(i) => WriteOther(s, s', c, p, i);
    case ForkFill(i) => ForkTarget(s, p); WriteOther(s, s', c, p, i);
    case ForkSet(i) => ForkTarget(s, p); WriteOther(s, s', c, p, i);
  }

  lemma WriteSelfKeepsRun(s: State, s': State, c: nat, p: nat)
    requires LocksOk(s) && RunOk(s) && WriteStep(s, s', c, p)
    requires SelfWriter(s.pc[p])
    ensures RunOk(s')
  {
    hide RunOk, HeldOk, CtlOk, PcsOk;
    match s.pc[p]
    case YieldHold(_) => LeaveKeepsRun(s, s', c, p);
    case Falling(_, _) => LeaveKeepsRun(s, s', c, p);
    case ExitHold => LeaveKeepsRun(s, s', c, p);
    case Resume(next) => ResumeKeepsRun(s, s', c, p);
    case _ => QuietKeepsRun(s, s', c, p);
  }

  lemma LeaveKeepsRun(s: State, s': State, c: nat, p: nat)
    requires LocksOk(s) && RunOk(s) && WriteStep(s, s', c, p)
    requires (s.pc[p].YieldHold? || s.pc[p].Falling? || s.pc[p].ExitHold?)
    ensures RunOk(s')
  {
    hide RunOk, HeldOk, PcsOk;
    OwnLockHere(s, c, p);
    LeavingKeepsRun(s, s', c, p);
  }

  lemma ResumeKeepsRun(s: State, s': State, c: nat, p: nat)
    requires LocksOk(s) && RunOk(s) && WriteStep(s, s', c, p) && s.pc[p].Resume?
    ensures RunOk(s')
  {
    hide RunOk, HeldOk, CtlOk, PcsOk;
    if s.pc[p].next.Back? { StoredPc(s, p); BackIsPlain(s.pc[p].next.pc); }
    QuietKeepsRun(s, s', c, p);
  }

  lemma StoredPc(s: State, p: nat)
    requires LocksOk(s) && p < |s.pc| && s.pc[p].Resume? && s.pc[p].next.Back?
    ensures Holds(s.pc[p].next.pc, 0) == {}
  {
  }

  /** fork's last write lets the child be scheduled; it was on no CPU. */
  lemma ForkSetKeepsLocks(s: State, s': State, c: nat, p: nat)
    requires LocksOk(s) && RunOk(s) && ForkOk(s) && WriteStep(s, s', c, p) && s.pc[p].ForkSet?
    ensures LocksOk(s')
  {
    hide RunOk, HeldOk, Aside, Off;
    var q := s.pc[p].q;
    ForkTarget(s, p);
    LockedAndOff(s, c, p, q);
    OthersAside(s, s', c, p);
    GiveKeepsHeld(s, s', c, ProcLock(q));
    forall r | 0 <= r < |s'.pc| ensures PcOk(s'.pc[r], |s'.pc|) {
      if r != p && r != q { assert PcOk(s.pc[r], |s.pc|); }
    }
  }

  // ---- the scheduler keeps both ----

  lemma CtlAside(s: State, t: State, c: nat)
    requires c < |s.ctl| && |s.noff| == |s.ctl| == |t.noff| && |t.ctl| == |s.ctl|
    requires t.ctl == s.ctl[c := t.ctl[c]]
    requires t.pc == s.pc || (s.ctl[c].Run? && CtlOk(s) && s.ctl[c].p < |s.pc| == |t.pc|
        && t.pc == s.pc[s.ctl[c].p := t.pc[s.ctl[c].p]])
    ensures Aside(s, t, c)
  {
  }

  /** A RUNNABLE process whose lock the scheduler of c holds is waiting, on no CPU, to be resumed. */
  lemma PickedWaits(s: State, c: nat, p: nat)
    requires LocksOk(s) && RunOk(s) && c < |s.ctl| && s.ctl[c] == Picked(p) && p < |s.st| && s.st[p] == RUNNABLE
    ensures Off(s, p) && s.pc[p].Resume? && !s.pc[p].next.Never?
    ensures forall d: nat :: d < |s.ctl| ==> s.ctl[d] != Returned(p)
  {
    forall d: nat | d < |s.ctl| ensures s.ctl[d] != Run(p) && s.ctl[d] != Returned(p) {
      if d != c { LockedElsewhere(s, c, p, d); }
    }
  }

  lemma SchedulerKeepsLocks(s: State, s': State, c: nat, p: nat)
    requires LocksOk(s) && RunOk(s)
    requires SchedulerStep(s, s', c, p)
    ensures LocksOk(s')
  {
    hide RunOk, HeldOk, Aside;
    CtlAside(s, s', c);
    if Pick(s, s', c, p) {
      TakeKeepsHeld(s, s', c, ProcLock(p));
    } else if SwitchIn(s, s', c, p) {
      PickedWaits(s, c, p);
      SameKeepsHeld(s, s', c);
    } else if SwitchOut(s, s', c, p) {
      SameKeepsHeld(s, s', c);
    } else {
      GiveKeepsHeld(s, s', c, ProcLock(p));
    }
  }

  lemma SchedulerKeepsRun(s: State, s': State, c: nat, p: nat)
    requires LocksOk(s) && RunOk(s)
    requires SchedulerStep(s, s', c, p)
    ensures RunOk(s')
  {
    hide HeldOk, PcsOk, CtlOk, RunOk;
    if SwitchIn(s, s', c, p) {
      SwitchInKeepsRun(s, s', c, p);
    } else if SwitchOut(s, s', c, p) {
      SwitchOutKeepsRun(s, s', c, p);
    } else {
      IdleCpuKeepsRun(s, s', c);
    }
  }

  /** A scheduler that takes or drops a process's lock runs nothing. */
  lemma IdleCpuKeepsRun(s: State, t: State, c: nat)
    requires RunOk(s) && c < |s.ctl| == |t.ctl| && Shape(t) && t.st == s.st && t.pc == s.pc
    requires t.ctl == s.ctl[c := t.ctl[c]]
    requires !s.ctl[c].Run? && !t.ctl[c].Run? && !t.ctl[c].Returned?
    ensures RunOk(t)
  {
    forall q: nat | q < |t.st| && (t.st[q] == RUNNING || !t.pc[q].Resume?)
      ensures exists d: nat :: d < |t.ctl| && t.ctl[d] == Run(q)
    {
      var d: nat :| d < |s.ctl| && s.ctl[d] == Run(q);
      assert t.ctl[d] == Run(q);
    }
  }

  lemma SwitchInKeepsRun(s: State, s': State, c: nat, p: nat)
    requires LocksOk(s) && RunOk(s) && SwitchIn(s, s', c, p)
    ensures RunOk(s')
  {
    hide HeldOk, PcsOk;
    PickedWaits(s, c, p);
    forall q: nat | q < |s'.st| && (s'.st[q] == RUNNING || !s'.pc[q].Resume?)
      ensures exists d: nat :: d < |s'.ctl| && s'.ctl[d] == Run(q)
    {
      if q == p {
        assert s'.ctl[c] == Run(p);
      } else {
        var d: nat :| d < |s.ctl| && s.ctl[d] == Run(q);
        assert s'.ctl[d] == Run(q);
      }
    }
  }

  lemma SwitchOutKeepsRun(s: State, s': State, c: nat, p: nat)
    requires LocksOk(s) && RunOk(s) && SwitchOut(s, s', c, p)
    ensures RunOk(s')
  {
    hide HeldOk, PcsOk;
    assert forall d: nat :: d < |s.ctl| && d != c ==> s.ctl[d] != Run(p);
    forall q: nat | q < |s'.st| && (s'.st[q] == RUNNING || !s'.pc[q].Resume?)
      ensures exists d: nat :: d < |s'.ctl| && s'.ctl[d] == Run(q)
    {
      var d: nat :| d < |s.ctl| && s.ctl[d] == Run(q);
      assert s'.ctl[d] == Run(q);
    }
  }

  lemma ForkTarget(s: State, p: nat)
    requires ForkOk(s) && p < |s.pc| && Target(s.pc[p]) >= 0
    ensures var q := Target(s.pc[p]); q < |s.st| && q != p && s.st[q] == USED
  {
  }

  lemma OwnLockHere(s: State, c: nat, p: nat)
    requires LocksOk(s) && c < |s.ctl| && s.ctl[c] == Run(p) && p < |s.pc| && ProcLock(p) in Holds(s.pc[p], p)
    ensures forall d: nat :: d < |s.ctl| ==> s.ctl[d] != Returned(p)
  {
    forall d: nat | d < |s.ctl| ensures s.ctl[d] != Returned(p) {
      if d != c { LockedElsewhere(s, c, p, d); }
    }
  }

  lemma MoveTarget(s: State, p: nat, m: Move)
    requires Shape(s) && p < |s.pc| && Moves(s, p, m)
    ensures Target(m.to) == Target(s.pc[p])
  {
  }

  /** No new fork begins and no USED process changes state, except that p may give up on its child. */
  lemma ForkQuiet(s: State, t: State, p: nat)
    requires ForkOk(s) && Shape(t) && |t.pc| == |s.pc| && p < |s.pc|
    requires forall r: nat :: r < |s.pc| && r != p ==> Target(t.pc[r]) == Target(s.pc[r]) || Target(t.pc[r]) == -1
    requires Target(t.pc[p]) == Target(s.pc[p]) || Target(t.pc[p]) == -1
    requires forall q: nat :: q < |s.st| && s.st[q] == USED && t.st[q] != USED ==>
        q == Target(s.pc[p]) && Target(t.pc[p]) == -1
    ensures ForkOk(t)
  {
  }

  lemma StepKeepsFork(s: State, s': State, c: nat, p: nat)
    requires LocksOk(s) && RunOk(s) && ForkOk(s)
    requires Step(s, s', c, p) && Shape(s') && |s'.pc| == |s.pc|
    ensures ForkOk(s')
  {
    hide ForkOk, HeldOk, CtlOk, PcsOk, RunOk, Moves, Writes;
    if MoveStep(s, s', c, p) {
      var m :| Moves(s, p, m) && Made(s, s', c, p, m);
      MoveTarget(s, p, m);
      ForkQuiet(s, s', p);
    } else if WriteStep(s, s', c, p) {
      RunningIfWrites(s, s', c, p);
      WriteKeepsFork(s, s', c, p);
    } else {
      PickedInTable(s, c, p);
      ForkQuiet(s, s', p);
    }
  }

  lemma PickedInTable(s: State, c: nat, p: nat)
    requires LocksOk(s) && c < |s.ctl|
    ensures Subject(s.ctl[c]) == p ==> p < |s.pc|
  {
  }

  lemma RunningIfWrites(s: State, s': State, c: nat, p: nat)
    requires LocksOk(s) && RunOk(s) && WriteStep(s, s', c, p)
    ensures s.st[p] == RUNNING
  {
    hide LocksOk;
  }

  lemma WriteKeepsFork(s: State, s': State, c: nat, p: nat)
    requires Shape(s) && ForkOk(s) && WriteStep(s, s', c, p) && s.st[p] == RUNNING && Shape(s') && |s'.pc| == |s.pc|
    ensures ForkOk(s')
  {
    hide ForkOk;
    match s.pc[p]
    case ForkLook(q) => ForkBegins(s, s', p, q);
    case ForkFill(q) => ForkQuiet(s, s', p);
    case ForkSet(q) => ForkQuiet(s, s', p);
    case WakeHold(_, i, _) => WriteOtherKeepsFork(s, s', c, p);
    case KillHold(i) => WriteOtherKeepsFork(s, s', c, p);
    case WaitHold(i, _) => WriteOtherKeepsFork(s, s', c, p);
    case _ => WriteSelfKeepsFork(s, s', c, p);
  }

  lemma WriteOtherKeepsFork(s: State, s': State, c: nat, p: nat)
    requires Shape(s) && ForkOk(s) && WriteStep(s, s', c, p) && s.st[p] == RUNNING && Shape(s') && |s'.pc| == |s.pc|
    requires s.pc[p].WakeHold? || s.pc[p].KillHold? || s.pc[p].WaitHold?
    ensures ForkOk(s')
  {
    hide ForkOk;
    ForkQuiet(s, s', p);
  }

  lemma WriteSelfKeepsFork(s: State, s': State, c: nat, p: nat)
    requires Shape(s) && ForkOk(s) && WriteStep(s, s', c, p) && s.st[p] == RUNNING && SelfWriter(s.pc[p])
    requires Shape(s') && |s'.pc| == |s.pc|
    ensures ForkOk(s')
  {
    hide ForkOk, Writes, Target;
    WriteSelfFrame(s, s', c, p);
    WriteSelfTarget(s, s', c, p);
    ForkQuiet(s, s', p);
  }

  /** pcs whose writes concern the process itself, or none. */
  predicate SelfWriter(pc: Pc) {
    !(pc.WakeHold? || pc.KillHold? || pc.WaitHold? || pc.ForkLook? || pc.ForkFill? || pc.ForkSet?)
  }

  lemma WriteSelfFrame(s: State, s': State, c: nat, p: nat)
    requires Shape(s) && WriteStep(s, s', c, p) && SelfWriter(s.pc[p]) && Shape(s') && |s'.pc| == |s.pc|
    ensures forall q: nat :: q < |s.pc| && q != p ==> s'.pc[q] == s.pc[q] && s'.st[q] == s.st[q]
  {
    if s.pc[p].Idle? { var k: nat :| Unlocks(s, s', c, p, k); }
  }

  lemma WriteSelfTarget(s: State, s': State, c: nat, p: nat)
    requires Shape(s) && WriteStep(s, s', c, p) && SelfWriter(s.pc[p]) && |s'.pc| == |s.pc|
    ensures Target(s'.pc[p]) == Target(s.pc[p])
  {
    match s.pc[p]
    case Idle => var k: nat :| Unlocks(s, s', c, p, k);
    case Resume(_) =>
    case YieldHold(_) =>
    case _ =>
  }

  lemma ForkBegins(s: State, t: State, p: nat, q: nat)
    requires ForkOk(s) && Shape(t) && p < |s.pc| && q < |s.pc| && q != p && s.st[q] == UNUSED && s.pc[p] == ForkLook(q)
    requires t.pc == s.pc[p := ForkFill(q)] && t.st == s.st[q := USED]
    ensures ForkOk(t)
  {
  }

  // ---- sleepers and wakeups ----

  /** q is asleep on ch, or has given up the condition lock and is about to be. */
  predicate SleepyOn(s: State, q: nat, ch: Chan)
    requires Shape(s) && q < |s.pc|
  {
    (s.st[q] == SLEEPING && s.chan[q] == ch) || (s.pc[q].Falling? && s.pc[q].ch == ch)
  }

  /** How far the wakeup(ch) that is under way with lock l held has got; the table size if none is. */
  function WakeAt(s: State, l: Lock, ch: Chan): nat {
    if l in s.locks && s.locks[l] < |s.ctl| && s.ctl[s.locks[l]].Run? && s.ctl[s.locks[l]].p < |s.pc| then
      match s.pc[s.ctl[s.locks[l]].p]
      case Waking(h, i, cont) => if h == ch && LockOf(cont) == l then i else |s.pc|
      case WakeHold(h, i, cont) => if h == ch && LockOf(cont) == l then i else |s.pc|
      case _ => |s.pc|
    else |s.pc|
  }

  /** The index of the wakeup made at pc, under lock l on ch. */
  function IndexAt(pc: Pc, l: Lock, ch: Chan, n: nat): nat {
    match pc
    case Waking(h, i, cont) => if h == ch && LockOf(cont) == l then i else n
    case WakeHold(h, i, cont) => if h == ch && LockOf(cont) == l then i else n
    case _ => n
  }

  lemma WakeAtHolder(s: State, l: Lock, ch: Chan, c: nat, p: nat)
    requires LocksOk(s) && c < |s.ctl| && s.ctl[c] == Run(p) && l in Holds(s.pc[p], p)
    ensures WakeAt(s, l, ch) == IndexAt(s.pc[p], l, ch, |s.pc|)
  {
    hide Holds, PcsOk;
    HolderIs(s, l, c);
  }

  lemma HolderIs(s: State, l: Lock, c: nat)
    requires HeldOk(s) && c < |s.ctl| && l in HeldBy(s, c)
    ensures l in s.locks && s.locks[l] == c
  {
    hide HeldBy;
  }

  /** A process becomes sleepy only by its own step, out of sleep() with the condition lock held. */
  lemma NewSleeper(s: State, s': State, c: nat, p: nat, q: nat, ch: Chan)
    requires LocksOk(s) && RunOk(s) && Step(s, s', c, p) && Shape(s') && |s'.pc| == |s.pc| && q < |s.pc|
    requires SleepyOn(s', q, ch) && !SleepyOn(s, q, ch)
    ensures q == p && s.pc[p].SleepHold? && s.pc[p].ch == ch && c < |s.ctl| && s.ctl[c] == Run(p)
    ensures s'.free == s.free && s'.parent == s.parent && s'.st == s.st
  {
    hide HeldOk, CtlOk, PcsOk, RunOk, Writes, Moves;
    if MoveStep(s, s', c, p) {
      var m :| Moves(s, p, m) && Made(s, s', c, p, m);
      MoveFalls(s, p, m);
    } else if WriteStep(s, s', c, p) {
      RunningIfWrites(s, s', c, p);
      WriteFalls(s, s', c, p, q, ch);
    }
  }

  lemma MoveFalls(s: State, p: nat, m: Move)
    requires Shape(s) && p < |s.pc| && Moves(s, p, m)
    ensures m.to.Falling? ==> s.pc[p] == SleepHold(m.to.lk, m.to.ch)
  {
  }

  /** No write to shared fields makes a process sleepy that was not. */
  lemma WriteFalls(s: State, s': State, c: nat, p: nat, q: nat, ch: Chan)
    requires LocksOk(s) && WriteStep(s, s', c, p) && Shape(s') && |s'.pc| == |s.pc| && q < |s.pc| && s.st[p] == RUNNING
    ensures SleepyOn(s', q, ch) ==> SleepyOn(s, q, ch)
  {
    hide HeldOk, CtlOk, PcsOk;
    if q == p { WriteFallsSelf(s, s', c, p, ch); } else { WriteFallsOther(s, s', c, p, q); }
  }

  /** pcs that a write to shared fields can lead to. */
  predicate AfterWrite(pc: Pc) {
    pc.Idle? || pc.Waking? || pc.Sched? || pc.Woken? || pc.WaitDone? || pc.ExitZombie? || pc.ForkFill?
        || pc.ForkParent? || pc.ForkWait? || pc.ForkRun?
  }

  lemma WriteGoes(s: State, s': State, c: nat, p: nat)
    requires LocksOk(s) && WriteStep(s, s', c, p)
    ensures |s'.pc| == |s.pc| && AfterWrite(s'.pc[p])
    ensures forall q: nat :: q < |s.pc| && q != p ==> s'.pc[q] == s.pc[q] || s'.pc[q] == Resume(Forkret)
    ensures s'.pc[p].Waking? && s'.pc[p].cont.ParentWoken? ==>
              s.pc[p].WakeHold? && s'.pc[p] == Waking(s.pc[p].ch, s.pc[p].i + 1, ParentWoken) && s'.parent == s.parent
  {
    hide HeldOk, CtlOk, PcsOk, Writes;
    if SelfWriter(s.pc[p]) {
      if s.pc[p].Resume? && s.pc[p].next.Back? { StoredPc(s, p); BackIsPlain(s.pc[p].next.pc); }
      WriteSelfGoes(s, s', c, p);
      WriteSelfStays(s, s', c, p);
    } else {
      WriteOtherGoes(s, s', c, p);
    }
  }

  lemma WriteSelfGoes(s: State, s': State, c: nat, p: nat)
    requires Shape(s) && WriteStep(s, s', c, p) && SelfWriter(s.pc[p])
    requires s.pc[p].Resume? && s.pc[p].next.Back? ==> AfterWrite(s.pc[p].next.pc) && !s.pc[p].next.pc.Waking?
    ensures |s'.pc| == |s.pc| && AfterWrite(s'.pc[p]) && !(s'.pc[p].Waking? && s'.pc[p].cont.ParentWoken?)
  {
    match s.pc[p]
    case Idle => var k: nat :| Unlocks(s, s', c, p, k);
    case Resume(_) =>
    case _ =>
  }

  lemma WriteSelfStays(s: State, s': State, c: nat, p: nat)
    requires Shape(s) && WriteStep(s, s', c, p) && SelfWriter(s.pc[p]) && |s'.pc| == |s.pc|
    ensures forall q: nat :: q < |s.pc| && q != p ==> s'.pc[q] == s.pc[q]
  {
    if s.pc[p].Idle? { var k: nat :| Unlocks(s, s', c, p, k); }
  }

  lemma WriteOtherGoes(s: State, s': State, c: nat, p: nat)
    requires Shape(s) && WriteStep(s, s', c, p) && !SelfWriter(s.pc[p])
    ensures |s'.pc| == |s.pc| && AfterWrite(s'.pc[p])
    ensures forall q: nat :: q < |s.pc| && q != p ==> s'.pc[q] == s.pc[q] || s'.pc[q] == Resume(Forkret)
    ensures s'.pc[p].Waking? ==>
              s.pc[p].WakeHold? && s'.pc[p] == Waking(s.pc[p].ch, s.pc[p].i + 1, s.pc[p].cont) && s'.parent == s.parent
  {
  }

  lemma WriteFallsOther(s: State, s': State, c: nat, p: nat, q: nat)
    requires LocksOk(s) && WriteStep(s, s', c, p) && Shape(s') && q < |s.pc| == |s'.pc| && q != p
    ensures s'.st[q] == SLEEPING ==> s.st[q] == SLEEPING && s'.chan[q] == s.chan[q]
    ensures s'.pc[q].Falling? ==> s'.pc[q] == s.pc[q]
  {
    hide Writes, HeldOk, CtlOk, PcsOk;
    WriteGoes(s, s', c, p);
    WriteRouses(s, s', c, p, q);
  }

  lemma WriteRouses(s: State, s': State, c: nat, p: nat, q: nat)
    requires Shape(s) && WriteStep(s, s', c, p) && Shape(s') && q < |s.pc| == |s'.pc| && q != p
    ensures s'.st[q] == SLEEPING ==> s.st[q] == SLEEPING && s'.chan[q] == s.chan[q]
  {
    match s.pc[p]
    case Idle => var k: nat :| Unlocks(s, s', c, p, k);
    case WakeHold(_, i, _) =>
    case KillHold(i) =>
    case WaitHold(i, _) =>
    case ForkSet(i) =>
    case ForkLook(i) =>
    case ForkFill(i) =>
    case _ =>
  }

  lemma WriteFallsSelf(s: State, s': State, c: nat, p: nat, ch: Chan)
    requires LocksOk(s) && WriteStep(s, s', c, p) && Shape(s') && |s'.pc| == |s.pc| && s.st[p] == RUNNING
    ensures SleepyOn(s', p, ch) ==> SleepyOn(s, p, ch)
  {
    hide HeldOk, CtlOk, PcsOk, Writes;
    WriteGoes(s, s', c, p);
    if s'.st[p] == SLEEPING { FallsAsleep(s, s', c, p); }
  }

  lemma FallsAsleep(s: State, s': State, c: nat, p: nat)
    requires Shape(s) && WriteStep(s, s', c, p) && Shape(s') && |s'.pc| == |s.pc| && s.st[p] == RUNNING
    requires s'.st[p] == SLEEPING
    ensures s.pc[p].Falling? && s'.chan[p] == s.pc[p].ch
  {
    IdleWrites(s, s', c, p);
  }

  /** A wakeup under way never passes a process that stays asleep on its channel. */
  lemma StillAhead(s: State, s': State, c: nat, p: nat, q: nat, l: Lock, ch: Chan)
    requires LocksOk(s) && RunOk(s) && ForkOk(s) && Step(s, s', c, p) && LocksOk(s') && |s'.pc| == |s.pc| && q < |s.pc|
    requires SleepyOn(s, q, ch) && SleepyOn(s', q, ch) && WakeAt(s, l, ch) <= q
    ensures WakeAt(s', l, ch) <= q
  {
    hide HeldOk, PcsOk, RunOk, ForkOk, Moves, Writes;
    WakerIs(s, l, ch);
    if s.locks[l] != c || SchedulerStep(s, s', c, p) {
      ElsewhereAhead(s, s', c, p, l, ch);
    } else if MoveStep(s, s', c, p) {
      MoveAhead(s, s', c, p, q, l, ch);
    } else {
      WriteAhead(s, s', c, p, q, l, ch);
    }
  }

  lemma WakerIs(s: State, l: Lock, ch: Chan)
    requires LocksOk(s) && WakeAt(s, l, ch) < |s.pc|
    ensures l in s.locks && s.locks[l] < |s.ctl| && s.ctl[s.locks[l]].Run? && s.ctl[s.locks[l]].p < |s.pc|
    ensures var pc := s.pc[s.ctl[s.locks[l]].p];
            && WakeAt(s, l, ch) == IndexAt(pc, l, ch, |s.pc|) && (pc.Waking? || pc.WakeHold?)
            && LockOf(pc.cont) == l && pc.ch == ch
  {
  }

  lemma MoveAhead(s: State, s': State, c: nat, p: nat, q: nat, l: Lock, ch: Chan)
    requires LocksOk(s) && RunOk(s) && MoveStep(s, s', c, p) && LocksOk(s') && |s'.pc| == |s.pc| && q < |s.pc|
    requires WakeAt(s, l, ch) <= q && l in s.locks && s.locks[l] == c && SleepyOn(s, q, ch)
    ensures WakeAt(s', l, ch) <= q
  {
    hide HeldOk, CtlOk, PcsOk, RunOk;
    WakerIs(s, l, ch);
    RunningNow(s, c, p);
    var m :| Moves(s, p, m) && Made(s, s', c, p, m);
    WakeAtHolder(s', l, ch, c, p);
  }

  lemma WriteAhead(s: State, s': State, c: nat, p: nat, q: nat, l: Lock, ch: Chan)
    requires LocksOk(s) && RunOk(s) && WriteStep(s, s', c, p) && LocksOk(s') && |s'.pc| == |s.pc| && q < |s.pc|
    requires WakeAt(s, l, ch) <= q && l in s.locks && s.locks[l] == c && SleepyOn(s', q, ch)
    ensures WakeAt(s', l, ch) <= q
  {
    hide HeldOk, CtlOk, PcsOk, RunOk;
    WakerIs(s, l, ch);
    var i := s.pc[p].i;
    assert s.pc[p].WakeHold?;
    if q == i {
      FallingHoldsLock(s, c, p, i);
    }
    WakeAtHolder(s', l, ch, c, p);
  }

  /** A process on its way to sleep holds its own lock, so no wakeup can be looking at it. */
  lemma FallingHoldsLock(s: State, c: nat, p: nat, q: nat)
    requires LocksOk(s) && RunOk(s) && c < |s.ctl| && s.ctl[c] == Run(p) && q < |s.pc|
    requires ProcLock(q) in Holds(s.pc[p], p) && !s.pc[p].Falling?
    ensures !s.pc[q].Falling?
  {
    if s.pc[q].Falling? {
      var d: nat :| d < |s.ctl| && s.ctl[d] == Run(q);
      OneHolder(s, c, d, ProcLock(q));
      assert false;
    }
  }

  /** A step of CPU c leaves the process running on another CPU where it is. */
  lemma StepElsewhere(s: State, s': State, c: nat, p: nat, d: nat, w: nat)
    requires LocksOk(s) && RunOk(s) && ForkOk(s) && Step(s, s', c, p) && |s'.pc| == |s.pc|
    requires c < |s.ctl| && d < |s.ctl| && d != c && s.ctl[d] == Run(w) && w < |s.pc|
    ensures |s'.ctl| == |s.ctl| && s'.ctl[d] == Run(w) && s'.pc[w] == s.pc[w]
  {
    hide HeldOk, PcsOk, RunOk, ForkOk, Moves, Writes;
    if WriteStep(s, s', c, p) {
      WriteElsewhere(s, s', c, p, w);
      if s.pc[p].ForkSet? && s.pc[p].q == w {
        ForkTarget(s, p);
        LockedAndOff(s, c, p, w);
      }
    }
  }

  /** Only the scheduler and sched() change what CPUs do. */
  lemma WriteStays(s: State, s': State, c: nat, p: nat)
    requires Shape(s) && WriteStep(s, s', c, p)
    ensures s'.ctl == s.ctl
  {
    if s.pc[p].Idle? { var k: nat :| Unlocks(s, s', c, p, k); }
  }

  lemma WriteElsewhere(s: State, s': State, c: nat, p: nat, w: nat)
    requires Shape(s) && WriteStep(s, s', c, p) && w < |s.pc| && w != p && |s'.pc| == |s.pc|
    ensures s'.ctl == s.ctl && (s'.pc[w] == s.pc[w] || (s.pc[p].ForkSet? && s.pc[p].q == w))
  {
    match s.pc[p]
    case Idle => var k: nat :| Unlocks(s, s', c, p, k);
    case _ =>
  }

  lemma ElsewhereAhead(s: State, s': State, c: nat, p: nat, l: Lock, ch: Chan)
    requires LocksOk(s) && RunOk(s) && ForkOk(s) && Step(s, s', c, p) && LocksOk(s') && |s'.pc| == |s.pc|
    requires WakeAt(s, l, ch) < |s.pc| && l in s.locks && (s.locks[l] != c || SchedulerStep(s, s', c, p))
    ensures WakeAt(s', l, ch) == WakeAt(s, l, ch)
  {
    hide HeldOk, PcsOk, RunOk, ForkOk, Moves, Writes;
    WakerIs(s, l, ch);
    var d := s.locks[l];
    var w := s.ctl[d].p;
    StepElsewhere(s, s', c, p, d, w);
    WakeAtHolder(s', l, ch, d, w);
  }

  // ---- invariant: sleep locks ----

  /**
   While sleep lock k is unlocked, a process sleepy on it is still ahead of the releaser's wakeup; a
   process in sleep(), before it gives up the lock's spinlock, has seen it locked.
   */
  ghost predicate CondOk(s: State) {
    && Shape(s)
    && (forall k: nat, q: nat :: k < |s.free| && q < |s.pc| && s.free[k] && SleepyOn(s, q, CondChan(k, 0)) ==>
          WakeAt(s, CondLock(k), CondChan(k, 0)) <= q)
    && (forall q: nat :: q < |s.pc| && s.pc[q].SleepHold? && s.pc[q].lk.CondLock? && s.pc[q].lk.k < |s.free| ==>
          !s.free[s.pc[q].lk.k])
  }

  lemma StepKeepsCond(s: State, s': State, c: nat, p: nat)
    requires LocksOk(s) && RunOk(s) && ForkOk(s) && CondOk(s) && Step(s, s', c, p)
    requires LocksOk(s') && |s'.pc| == |s.pc| && |s'.free| == |s.free|
    ensures CondOk(s')
  {
    hide HeldOk, CtlOk, PcsOk, RunOk, ForkOk, Moves, Writes, WakeAt;
    forall k: nat, q: nat | k < |s'.free| && q < |s'.pc| && s'.free[k] && SleepyOn(s', q, CondChan(k, 0))
      ensures WakeAt(s', CondLock(k), CondChan(k, 0)) <= q
    {
      if !SleepyOn(s, q, CondChan(k, 0)) {
        NewSleeper(s, s', c, p, q, CondChan(k, 0));
        SleepsUnder(s, p);
      } else if s.free[k] {
        StillAhead(s, s', c, p, q, CondLock(k), CondChan(k, 0));
      } else {
        Unlocked(s, s', c, p, k);
      }
    }
    forall q: nat | q < |s'.pc| && s'.pc[q].SleepHold? && s'.pc[q].lk.CondLock? && s'.pc[q].lk.k < |s'.free|
      ensures !s'.free[s'.pc[q].lk.k]
    {
      SleepHoldStep(s, s', c, p, q);
    }
  }

  lemma SleepsUnder(s: State, p: nat)
    requires LocksOk(s) && p < |s.pc| && s.pc[p].SleepHold?
    ensures ChanUnder(s.pc[p].lk, s.pc[p].ch)
  {
    assert PcOk(s.pc[p], |s.pc|);
  }

  /** A sleep lock becomes unlocked only at the start of a wakeup of all its sleepers. */
  lemma Unlocked(s: State, s': State, c: nat, p: nat, k: nat)
    requires LocksOk(s) && Step(s, s', c, p) && LocksOk(s') && |s'.pc| == |s.pc| && |s'.free| == |s.free|
    requires k < |s.free| && !s.free[k] && s'.free[k]
    ensures WakeAt(s', CondLock(k), CondChan(k, 0)) == 0
  {
    hide HeldOk, CtlOk, PcsOk, Moves;
    BecomesFree(s, s', c, p, k);
    WakeAtHolder(s', CondLock(k), CondChan(k, 0), c, p);
  }

  lemma SleepHoldStep(s: State, s': State, c: nat, p: nat, q: nat)
    requires LocksOk(s) && RunOk(s) && ForkOk(s) && CondOk(s) && Step(s, s', c, p) && |s'.pc| == |s.pc|
    requires |s'.free| == |s.free|
    requires q < |s.pc| && s'.pc[q].SleepHold? && s'.pc[q].lk.CondLock? && s'.pc[q].lk.k < |s.free|
    ensures !s'.free[s'.pc[q].lk.k]
  {
    hide HeldOk, CtlOk, PcsOk, RunOk, ForkOk, WakeAt, SleepyOn, Moves, Writes;
    var k := s'.pc[q].lk.k;
    if MoveStep(s, s', c, p) {
      var m :| Moves(s, p, m) && Made(s, s', c, p, m);
      MoveSleeps(s, p, m);
    } else if WriteStep(s, s', c, p) {
      WriteGoes(s, s', c, p);
      SleepHoldWrite(s, s', c, p, q);
    }
  }

  lemma MoveSleeps(s: State, p: nat, m: Move)
    requires Shape(s) && p < |s.pc| && Moves(s, p, m)
    ensures m.to.SleepHold? && m.to.lk.CondLock? && m.to.lk.k < |s.free| ==> !s.free[m.to.lk.k]
    ensures m.to.SleepHold? && m.to.lk.WaitLock? ==> s.pc[p].WaitScan? && s.pc[p].i >= |s.pc|
  {
  }

  lemma SleepHoldWrite(s: State, s': State, c: nat, p: nat, q: nat)
    requires LocksOk(s) && RunOk(s) && CondOk(s) && WriteStep(s, s', c, p) && |s'.free| == |s.free|
    requires q < |s.pc| && s.pc[q].SleepHold? && s.pc[q].lk.CondLock? && s.pc[q].lk.k < |s.free|
    ensures !s'.free[s.pc[q].lk.k]
  {
    hide HeldOk, CtlOk, PcsOk, RunOk, WakeAt, SleepyOn, Writes;
    RunsHolding(s, q);
    if s'.free[s.pc[q].lk.k] { BecomesFree(s, s', c, p, s.pc[q].lk.k); }
  }

  lemma BecomesFree(s: State, s': State, c: nat, p: nat, k: nat)
    requires Shape(s) && WriteStep(s, s', c, p) && |s'.free| == |s.free| && k < |s.free| && !s.free[k] && s'.free[k]
    ensures Unlocks(s, s', c, p, k)
  {
    hide Writes;
    if s.pc[p].Idle? { WriteIdle(s, s', c, p, k); } else { FreeStays(s, s', c, p, k); }
  }

  lemma WriteIdle(s: State, s': State, c: nat, p: nat, k: nat)
    requires Shape(s) && WriteStep(s, s', c, p) && s.pc[p].Idle? && |s'.free| == |s.free| && k < |s.free|
    requires !s.free[k] && s'.free[k]
    ensures Unlocks(s, s', c, p, k)
  {
    var j: nat :| Unlocks(s, s', c, p, j);
  }

  lemma FreeStays(s: State, s': State, c: nat, p: nat, k: nat)
    requires Shape(s) && WriteStep(s, s', c, p) && !s.pc[p].Idle? && |s'.free| == |s.free| && k < |s.free| && !s.free[k]
    ensures !s'.free[k]
  {
    match s.pc[p]
    case CondHold(_) =>
    case Resume(_) =>
    case _ =>
  }

  /** A process in sleep() is on a CPU, with its locks held there. */
  lemma RunsHolding(s: State, q: nat)
    requires LocksOk(s) && RunOk(s) && q < |s.pc| && s.pc[q].SleepHold?
    ensures s.pc[q].lk in s.locks
  {
    var d: nat :| d < |s.ctl| && s.ctl[d] == Run(q);
    assert s.pc[q].lk in HeldBy(s, d);
    assert s.pc[q].lk in s.locks && s.locks[s.pc[q].lk] == d;
  }

  // ---- invariant: wait and exit ----

  /** The processes below this index have been looked at by the wait() at pc. */
  function Scanned(pc: Pc, n: nat): nat {
    match pc
    case WaitScan(i, _) => i
    case WaitHold(i, _) => i
    case SleepHold(lk, _) => if lk.WaitLock? then n else 0
    case Inner(b, _) => Scanned(b, n)
    case _ => 0
  }

  /** The processes below this index have been looked at by the exit() at pc, waking its parent. */
  function Woke(pc: Pc, n: nat): nat {
    match pc
    case Waking(_, i, cont) => if cont.ParentWoken? then i else 0
    case WakeHold(_, i, cont) => if cont.ParentWoken? then i else 0
    case ExitReady => n
    case ExitHold => n
    case _ => 0
  }

  ghost predicate ZombieChild(s: State, p: nat, q: nat)
    requires Shape(s) && q < |s.pc|
  {
    s.parent[q] == p && s.st[q] == ZOMBIE
  }

  /** A waiting parent has no zombie child, unless it is init and about to be woken by reparent. */
  ghost predicate NoZombieWaits(s: State) {
    Shape(s) && forall w: nat, q: nat :: w < |s.pc| && q < |s.pc| && SleepyOn(s, w, ProcChan(w))
                                         && ZombieChild(s, w, q) ==>
      w == INIT && WakeAt(s, WaitLock, ProcChan(INIT)) <= INIT
  }

  ghost predicate ScanOk(s: State) {
    Shape(s) && forall w: nat, q: nat :: w < |s.pc| && q < |s.pc| && q < Scanned(s.pc[w], |s.pc|) ==>
        !ZombieChild(s, w, q)
  }

  ghost predicate ExitOk(s: State) {
    && Shape(s)
    && (forall e: nat :: e < |s.pc| && (s.pc[e].Waking? || s.pc[e].WakeHold?) && s.pc[e].cont.ParentWoken? ==>
          s.pc[e].ch == ProcChan(s.parent[e]))
    && (forall e: nat, w: nat :: e < |s.pc| && w < |s.pc| && s.parent[e] == w && w < Woke(s.pc[e], |s.pc|) ==>
          !SleepyOn(s, w, ProcChan(w)))
  }

  ghost predicate WaitOk(s: State) {
    NoZombieWaits(s) && ScanOk(s) && ExitOk(s)
  }

  /** Unlocking a sleep lock touches no process. */
  lemma IdleWrites(s: State, s': State, c: nat, p: nat)
    requires Shape(s) && WriteStep(s, s', c, p)
    ensures s.pc[p].Idle? ==> s'.st == s.st && s'.parent == s.parent
  {
    if s.pc[p].Idle? { var k: nat :| Unlocks(s, s', c, p, k); }
  }

  /** A process gets a new parent, or turns ZOMBIE, only under wait_lock. */
  lemma WaitGuards(s: State, s': State, c: nat, p: nat, q: nat)
    requires LocksOk(s) && Step(s, s', c, p) && |s'.pc| == |s.pc| && Shape(s') && q < |s.pc|
    requires (s'.parent[q] != s.parent[q] && s'.parent[q] >= 0) || (s'.st[q] == ZOMBIE && s.st[q] != ZOMBIE)
    ensures WriteStep(s, s', c, p) && (WaitLock !in s.locks || WaitLock in Holds(s.pc[p], p))
    ensures s'.st[q] == ZOMBIE && s.st[q] != ZOMBIE ==> s.pc[p].ExitHold? && q == p
    ensures s'.parent[q] != s.parent[q] && s'.parent[q] >= 0 ==>
              || (s.pc[p].ExitScan? && s'.parent[q] == INIT && s'.pc[p] == Waking(ProcChan(INIT), 0, Reparented(q)))
              || (s.pc[p].ForkParent? && s'.parent[q] == p)
  {
    hide HeldOk, CtlOk, PcsOk, Moves, Writes;
    if WriteStep(s, s', c, p) {
      if s'.st[q] == ZOMBIE && s.st[q] != ZOMBIE { ZombieGuard(s, s', c, p, q); }
      if s'.parent[q] != s.parent[q] && s'.parent[q] >= 0 { ParentGuard(s, s', c, p, q); }
    }
  }

  lemma ZombieGuard(s: State, s': State, c: nat, p: nat, q: nat)
    requires Shape(s) && WriteStep(s, s', c, p) && |s'.pc| == |s.pc| && Shape(s') && q < |s.pc|
    requires s'.st[q] == ZOMBIE && s.st[q] != ZOMBIE
    ensures s.pc[p].ExitHold? && q == p && WaitLock in Holds(s.pc[p], p)
  {
    IdleWrites(s, s', c, p);
    match s.pc[p]
    case ExitHold =>
    case _ =>
  }

  lemma ParentGuard(s: State, s': State, c: nat, p: nat, q: nat)
    requires Shape(s) && WriteStep(s, s', c, p) && |s'.pc| == |s.pc| && Shape(s') && q < |s.pc|
    requires s'.parent[q] != s.parent[q] && s'.parent[q] >= 0
    ensures WaitLock !in s.locks || WaitLock in Holds(s.pc[p], p)
    ensures || (s.pc[p].ExitScan? && s'.parent[q] == INIT && s'.pc[p] == Waking(ProcChan(INIT), 0, Reparented(q)))
            || (s.pc[p].ForkParent? && s'.parent[q] == p)
  {
    IdleWrites(s, s', c, p);
    match s.pc[p]
    case ExitScan(i) =>
    case ForkParent(i) =>
    case _ =>
  }

  /** A process that is scanning in wait() or finishing exit() is on a CPU and holds wait_lock there. */
  lemma HoldsWait(s: State, e: nat)
    requires LocksOk(s) && RunOk(s) && e < |s.pc| && (Scanned(s.pc[e], |s.pc|) > 0 || Woke(s.pc[e], |s.pc|) > 0)
    ensures WaitLock in s.locks && WaitLock in Holds(s.pc[e], e)
    ensures s.locks[WaitLock] < |s.ctl| && s.ctl[s.locks[WaitLock]] == Run(e)
  {
    hide Holds, Scanned, Woke;
    assert PcOk(s.pc[e], |s.pc|);
    ScannedHolds(s.pc[e], e, |s.pc|);
    AwakeAtWork(s.pc[e], |s.pc|);
    var d: nat :| d < |s.ctl| && s.ctl[d] == Run(e);
    assert WaitLock in HeldBy(s, d);
    assert WaitLock in s.locks && s.locks[WaitLock] == d;
  }

  lemma AwakeAtWork(pc: Pc, n: nat)
    requires Scanned(pc, n) > 0 || Woke(pc, n) > 0
    ensures !pc.Resume?
  {
  }

  lemma ScannedHolds(pc: Pc, p: nat, n: nat)
    requires PcOk(pc, n) && (Scanned(pc, n) > 0 || Woke(pc, n) > 0)
    ensures WaitLock in Holds(pc, p)
  {
    match pc
    case Inner(b, _) => assert b.WaitHold?;
    case _ =>
  }

  lemma OneWaitHolder(s: State, c: nat, p: nat)
    requires LocksOk(s) && c < |s.ctl| && s.ctl[c] == Run(p) && p < |s.pc| && WaitLock in Holds(s.pc[p], p)
    ensures WaitLock in s.locks && s.locks[WaitLock] == c
  {
    hide Holds, PcsOk, CtlOk;
    assert WaitLock in HeldBy(s, c);
  }

  lemma StepKeepsNoZombieWaits(s: State, s': State, c: nat, p: nat)
    requires LocksOk(s) && RunOk(s) && ForkOk(s) && WaitOk(s) && Step(s, s', c, p) && LocksOk(s') && |s'.pc| == |s.pc|
    ensures NoZombieWaits(s')
  {
    hide HeldOk, CtlOk, PcsOk, RunOk, ForkOk, ScanOk, Moves, Writes, WakeAt;
    forall w: nat, q: nat | w < |s'.pc| && q < |s'.pc| && SleepyOn(s', w, ProcChan(w)) && ZombieChild(s', w, q)
      ensures w == INIT && WakeAt(s', WaitLock, ProcChan(INIT)) <= INIT
    {
      if !SleepyOn(s, w, ProcChan(w)) {
        NewSleeper(s, s', c, p, w, ProcChan(w));
        SleepsInWait(s, p);
        NoneFound(s, p, q);
        assert false;
      } else if ZombieChild(s, w, q) {
        StillAhead(s, s', c, p, w, WaitLock, ProcChan(w));
      } else {
        WaitGuards(s, s', c, p, q);
        NewZombieChild(s, s', c, p, w, q);
      }
    }
  }

  lemma NoneFound(s: State, w: nat, q: nat)
    requires ScanOk(s) && w < |s.pc| && q < |s.pc| && q < Scanned(s.pc[w], |s.pc|)
    ensures !ZombieChild(s, w, q)
  {
  }

  lemma SleepsInWait(s: State, p: nat)
    requires LocksOk(s) && p < |s.pc| && s.pc[p].SleepHold? && s.pc[p].ch == ProcChan(p)
    ensures Scanned(s.pc[p], |s.pc|) == |s.pc|
  {
    assert PcOk(s.pc[p], |s.pc|);
  }

  lemma NewZombieChild(s: State, s': State, c: nat, p: nat, w: nat, q: nat)
    requires LocksOk(s) && RunOk(s) && ExitOk(s) && WriteStep(s, s', c, p) && LocksOk(s') && |s'.pc| == |s.pc|
    requires w < |s.pc| && q < |s.pc| && SleepyOn(s, w, ProcChan(w)) && !ZombieChild(s, w, q) && ZombieChild(s', w, q)
    requires s'.st[q] == ZOMBIE && s.st[q] != ZOMBIE ==> s.pc[p].ExitHold? && q == p
    requires s'.parent[q] != s.parent[q] && s'.parent[q] >= 0 ==>
               || (s.pc[p].ExitScan? && s'.parent[q] == INIT && s'.pc[p] == Waking(ProcChan(INIT), 0, Reparented(q)))
               || (s.pc[p].ForkParent? && s'.parent[q] == p)
    ensures w == INIT && WakeAt(s', WaitLock, ProcChan(INIT)) <= INIT
  {
    hide HeldOk, CtlOk, PcsOk, RunOk, WakeAt, ExitOk, Writes;
    if s.pc[p].ExitScan? {
      WriteStays(s, s', c, p);
      WakeAtHolder(s', WaitLock, ProcChan(INIT), c, p);
    } else if s.pc[p].ForkParent? {
      RunningIfWrites(s, s', c, p);
      assert false;
    } else {
      ParentAwake(s, p, w);
      assert false;
    }
  }

  /** When exit() is about to turn ZOMBIE, its parent is not asleep in wait(). */
  lemma ParentAwake(s: State, e: nat, w: nat)
    requires ExitOk(s) && e < |s.pc| && w < |s.pc| && s.parent[e] == w && s.pc[e].ExitHold?
    ensures !SleepyOn(s, w, ProcChan(w))
  {
    assert w < Woke(s.pc[e], |s.pc|);
  }

  lemma StepKeepsScan(s: State, s': State, c: nat, p: nat)
    requires LocksOk(s) && RunOk(s) && ForkOk(s) && ScanOk(s) && Step(s, s', c, p) && LocksOk(s') && |s'.pc| == |s.pc|
    ensures ScanOk(s')
  {
    hide HeldOk, CtlOk, PcsOk, RunOk, ForkOk, Moves, Writes;
    forall w: nat, q: nat | w < |s'.pc| && q < |s'.pc| && q < Scanned(s'.pc[w], |s'.pc|)
      ensures !ZombieChild(s', w, q)
    {
      ScanStep(s, s', c, p, w, q);
      if ZombieChild(s', w, q) && !ZombieChild(s, w, q) {
        WaitGuards(s, s', c, p, q);
        if w != p {
          HoldsWait(s, w);
          OneWaitHolderIf(s, c, p, w);
        } else {
          WriteGoes(s, s', c, p);
        }
        assert false;
      }
    }
  }

  lemma OneWaitHolderIf(s: State, c: nat, p: nat, w: nat)
    requires LocksOk(s) && c < |s.ctl| && s.ctl[c] == Run(p) && p < |s.pc| && w != p
    requires WaitLock in s.locks && s.locks[WaitLock] < |s.ctl| && s.ctl[s.locks[WaitLock]] == Run(w)
    ensures WaitLock !in Holds(s.pc[p], p)
  {
    if WaitLock in Holds(s.pc[p], p) { OneWaitHolder(s, c, p); }
  }

  /** The part of the table wait() has scanned grows over one entry at a time, never a zombie child. */
  lemma ScanStep(s: State, s': State, c: nat, p: nat, w: nat, q: nat)
    requires LocksOk(s) && ScanOk(s) && Step(s, s', c, p) && Shape(s') && |s'.pc| == |s.pc|
    requires w < |s.pc| && q < |s.pc| && q < Scanned(s'.pc[w], |s.pc|)
    ensures !ZombieChild(s, w, q)
    ensures w != p ==> s'.pc[w] == s.pc[w]
  {
    hide HeldOk, CtlOk, PcsOk, Writes;
    if MoveStep(s, s', c, p) {
      var m :| Moves(s, p, m) && Made(s, s', c, p, m);
      if w == p { MoveScans(s, p, m, q); }
    } else if WriteStep(s, s', c, p) {
      WriteGoes(s, s', c, p);
    }
  }

  lemma MoveScans(s: State, p: nat, m: Move, q: nat)
    requires Shape(s) && ScanOk(s) && p < |s.pc| && Moves(s, p, m) && q < |s.pc| && q < Scanned(m.to, |s.pc|)
    ensures !ZombieChild(s, p, q)
  {
    assert q < Scanned(s.pc[p], |s.pc|) ==> !ZombieChild(s, p, q);
  }

  /** exit() is past reparent and before its state changes. */
  predicate Exiting(pc: Pc) {
    ((pc.Waking? || pc.WakeHold?) && pc.cont.ParentWoken?) || pc.ExitReady? || pc.ExitHold?
  }

  lemma ExitingHolds(s: State, e: nat)
    requires LocksOk(s) && RunOk(s) && e < |s.pc| && Exiting(s.pc[e])
    ensures WaitLock in s.locks && s.locks[WaitLock] < |s.ctl| && s.ctl[s.locks[WaitLock]] == Run(e)
    ensures s.st[e] == RUNNING
  {
    var d: nat :| d < |s.ctl| && s.ctl[d] == Run(e);
    assert WaitLock in HeldBy(s, d);
    assert WaitLock in s.locks && s.locks[WaitLock] == d;
  }

  /** The parent of a process in exit() does not change under it. */
  lemma ParentStays(s: State, s': State, c: nat, p: nat, e: nat)
    requires LocksOk(s) && RunOk(s) && ForkOk(s) && Step(s, s', c, p) && |s'.pc| == |s.pc| && Shape(s')
    requires e < |s.pc| && e != p && Exiting(s.pc[e])
    ensures s'.parent[e] == s.parent[e]
  {
    hide HeldOk, CtlOk, PcsOk, RunOk, ForkOk, Moves, Writes;
    ExitingHolds(s, e);
    if s'.parent[e] != s.parent[e] && s'.parent[e] >= 0 {
      WaitGuards(s, s', c, p, e);
      OneWaitHolderIf(s, c, p, e);
      assert false;
    } else if s'.parent[e] != s.parent[e] {
      ParentCleared(s, s', c, p, e);
      assert false;
    }
  }

  /** freeproc is applied only to zombies and to half-made children. */
  lemma ParentCleared(s: State, s': State, c: nat, p: nat, q: nat)
    requires LocksOk(s) && ForkOk(s) && Step(s, s', c, p) && |s'.pc| == |s.pc| && Shape(s')
    requires q < |s.pc| && s'.parent[q] != s.parent[q] && s'.parent[q] < 0
    ensures s.st[q] == ZOMBIE || s.st[q] == USED
  {
    hide HeldOk, CtlOk, PcsOk, Moves;
    if WriteStep(s, s', c, p) {
      IdleWrites(s, s', c, p);
      match s.pc[p]
      case ForkFill(i) =>
      case WaitHold(i, _) =>
      case _ =>
    }
  }

  lemma StepKeepsExit(s: State, s': State, c: nat, p: nat)
    requires LocksOk(s) && RunOk(s) && ForkOk(s) && WaitOk(s) && Step(s, s', c, p) && LocksOk(s') && |s'.pc| == |s.pc|
    ensures ExitOk(s')
  {
    hide HeldOk, CtlOk, PcsOk, RunOk, ForkOk, NoZombieWaits, ScanOk, ExitOk, Moves, Writes;
    forall e: nat | e < |s'.pc| && Exiting(s'.pc[e]) ensures ExitsWell(s', e) {
      ExitIn(s, e);
      if e != p { OtherExits(s, s', c, p, e); } else { SelfExits(s, s', c, p); }
    }
    ExitsAll(s');
  }

  ghost predicate ExitsWell(s: State, e: nat)
    requires Shape(s) && e < |s.pc|
  {
    && ((s.pc[e].Waking? || s.pc[e].WakeHold?) && s.pc[e].cont.ParentWoken? ==> s.pc[e].ch == ProcChan(s.parent[e]))
    && (forall w: nat :: w < |s.pc| && s.parent[e] == w && w < Woke(s.pc[e], |s.pc|) ==> !SleepyOn(s, w, ProcChan(w)))
  }

  lemma ExitsAll(s: State)
    requires Shape(s) && forall e: nat :: e < |s.pc| && Exiting(s.pc[e]) ==> ExitsWell(s, e)
    ensures ExitOk(s)
  {
  }

  lemma ExitIn(s: State, e: nat)
    requires ExitOk(s) && e < |s.pc|
    ensures ExitsWell(s, e)
  {
  }

  lemma OtherExits(s: State, s': State, c: nat, p: nat, e: nat)
    requires LocksOk(s) && RunOk(s) && ForkOk(s) && Step(s, s', c, p) && |s'.pc| == |s.pc| && Shape(s')
    requires e < |s.pc| && e != p && Exiting(s'.pc[e]) && ExitsWell(s, e)
    ensures ExitsWell(s', e)
  {
    hide HeldOk, CtlOk, PcsOk, RunOk, ForkOk, Moves, Writes;
    OthersStay(s, s', c, p, e);
    ParentStays(s, s', c, p, e);
    forall w: nat | w < |s.pc| && s.parent[e] == w && w < Woke(s.pc[e], |s.pc|) ensures !SleepyOn(s', w, ProcChan(w)) {
      if SleepyOn(s', w, ProcChan(w)) {
        NewSleeper(s, s', c, p, w, ProcChan(w));
        SleepsInWait(s, p);
        ExitingHolds(s, e);
        OneWaitHolderIf(s, c, p, e);
        assert false;
      }
    }
  }

  lemma OthersStay(s: State, s': State, c: nat, p: nat, e: nat)
    requires LocksOk(s) && Step(s, s', c, p) && |s'.pc| == |s.pc| && e < |s.pc| && e != p
    ensures s'.pc[e] == s.pc[e] || s'.pc[e] == Resume(Forkret)
  {
    hide HeldOk, CtlOk, PcsOk, Moves, Writes;
    if WriteStep(s, s', c, p) { WriteGoes(s, s', c, p); }
  }

  lemma SelfExits(s: State, s': State, c: nat, p: nat)
    requires LocksOk(s) && RunOk(s) && ForkOk(s) && Step(s, s', c, p) && |s'.pc| == |s.pc| && Shape(s')
    requires p < |s.pc| && Exiting(s'.pc[p]) && ExitsWell(s, p)
    ensures ExitsWell(s', p)
  {
    hide HeldOk, CtlOk, PcsOk, RunOk, ForkOk, Moves, Writes, ExitsWell, SchedulerStep;
    if MoveStep(s, s', c, p) {
      var m :| Moves(s, p, m) && Made(s, s', c, p, m);
      MoveTo(s, p, m);
      RunningNow(s, c, p);
      MoveExits(s, s', p, m);
    } else if WriteStep(s, s', c, p) {
      WriteGoes(s, s', c, p);
      WriteExits(s, s', c, p);
    } else {
      SchedulerExits(s, s', c, p);
    }
  }

  lemma SchedulerExits(s: State, s': State, c: nat, p: nat)
    requires Shape(s) && SchedulerStep(s, s', c, p) && |s'.pc| == |s.pc| && Shape(s')
    requires p < |s.pc| && Exiting(s'.pc[p]) && ExitsWell(s, p)
    ensures ExitsWell(s', p)
  {
  }

  lemma MoveExits(s: State, t: State, p: nat, m: Move)
    requires Shape(s) && p < |s.pc| && Moves(s, p, m) && Exiting(m.to) && s.st[p] == RUNNING && ExitsWell(s, p)
    requires t.pc == s.pc[p := m.to] && t.st == s.st && t.parent == s.parent && t.chan == s.chan && Shape(t)
    ensures ExitsWell(t, p)
  {
  }

  lemma WriteExits(s: State, s': State, c: nat, p: nat)
    requires LocksOk(s) && RunOk(s) && WriteStep(s, s', c, p) && |s'.pc| == |s.pc| && Shape(s') && ExitsWell(s, p)
    requires s.pc[p].WakeHold? && s'.pc[p] == Waking(s.pc[p].ch, s.pc[p].i + 1, ParentWoken) && s'.parent == s.parent
    ensures ExitsWell(s', p)
  {
    hide HeldOk, CtlOk, PcsOk, RunOk;
    var i := s.pc[p].i;
    FallingHoldsLock(s, c, p, i);
  }

  // ---- invariant: wakeup ----

  /** The wakeup under way at process e has left nobody below its index asleep on its channel. */
  ghost predicate WokenBelow(s: State, e: nat)
    requires Shape(s) && e < |s.pc|
  {
    s.pc[e].Waking? || s.pc[e].WakeHold? ==>
        forall q: nat :: q < |s.pc| && q < s.pc[e].i ==> !SleepyOn(s, q, s.pc[e].ch)
  }

  ghost predicate WokeOk(s: State) {
    Shape(s) && forall e: nat :: e < |s.pc| ==> WokenBelow(s, e)
  }

  lemma StepKeepsWoke(s: State, s': State, c: nat, p: nat)
    requires LocksOk(s) && RunOk(s) && ForkOk(s) && WokeOk(s) && Step(s, s', c, p) && LocksOk(s') && |s'.pc| == |s.pc|
    ensures WokeOk(s')
  {
    hide HeldOk, CtlOk, PcsOk, RunOk, ForkOk, Moves, Writes, WokenBelow;
    forall e: nat | e < |s'.pc| ensures WokenBelow(s', e) {
      assert WokenBelow(s, e);
      if e != p { OtherWakes(s, s', c, p, e); } else { SelfWakes(s, s', c, p); }
    }
  }

  /** Nobody falls asleep behind a wakeup: that takes the lock the wakeup is made under. */
  lemma OtherWakes(s: State, s': State, c: nat, p: nat, e: nat)
    requires LocksOk(s) && RunOk(s) && Step(s, s', c, p) && |s'.pc| == |s.pc| && Shape(s')
    requires e < |s.pc| && e != p && WokenBelow(s, e)
    ensures WokenBelow(s', e)
  {
    hide HeldOk, CtlOk, PcsOk, RunOk, Moves, Writes;
    OthersStay(s, s', c, p, e);
    if s'.pc[e].Waking? || s'.pc[e].WakeHold? {
      forall q: nat | q < |s'.pc| && q < s'.pc[e].i ensures !SleepyOn(s', q, s'.pc[e].ch) {
        if SleepyOn(s', q, s'.pc[e].ch) {
          NewSleeper(s, s', c, p, q, s.pc[e].ch);
          SleeperExcluded(s, c, p, e);
        }
      }
    }
  }

  lemma SleeperExcluded(s: State, c: nat, p: nat, e: nat)
    requires LocksOk(s) && RunOk(s) && c < |s.ctl| && s.ctl[c] == Run(p) && p < |s.pc| && e < |s.pc|
    requires s.pc[p].SleepHold? && (s.pc[e].Waking? || s.pc[e].WakeHold?)
    ensures s.pc[e].ch != s.pc[p].ch
  {
    if s.pc[e].ch == s.pc[p].ch {
      assert PcOk(s.pc[p], |s.pc|) && PcOk(s.pc[e], |s.pc|);
      var d: nat :| d < |s.ctl| && s.ctl[d] == Run(e);
      OneHolder(s, c, d, s.pc[p].lk);
      assert false;
    }
  }

  lemma SelfWakes(s: State, s': State, c: nat, p: nat)
    requires LocksOk(s) && RunOk(s) && Step(s, s', c, p) && |s'.pc| == |s.pc| && Shape(s')
    requires p < |s.pc| && WokenBelow(s, p)
    ensures WokenBelow(s', p)
  {
    hide HeldOk, CtlOk, PcsOk, RunOk, Moves, Writes;
    if MoveStep(s, s', c, p) {
      var m :| Moves(s, p, m) && Made(s, s', c, p, m);
      MoveTo(s, p, m);
      if !s.pc[p].ExitZombie? { RunningNow(s, c, p); }
      MoveWakes(s, s', p, m);
    } else if WriteStep(s, s', c, p) {
      RunningIfWrites(s, s', c, p);
      WriteWakes(s, s', c, p);
    } else {
      SchedulerWakes(s, s', c, p);
    }
  }

  lemma MoveWakes(s: State, t: State, p: nat, m: Move)
    requires Shape(s) && p < |s.pc| && Moves(s, p, m) && WokenBelow(s, p) && (s.st[p] == RUNNING || s.pc[p].ExitZombie?)
    requires t.pc == s.pc[p := m.to] && t.st == s.st && t.chan == s.chan && Shape(t)
    ensures WokenBelow(t, p)
  {
    if m.to.Waking? || m.to.WakeHold? {
      MoveWaking(s, p, m);
      assert forall q: nat :: q < |s.pc| && SleepyOn(t, q, m.to.ch) ==> SleepyOn(s, q, m.to.ch);
    }
  }

  /** A wakeup starts at 0, and passes over no process but the one making it. */
  lemma MoveWaking(s: State, p: nat, m: Move)
    requires Shape(s) && p < |s.pc| && Moves(s, p, m) && (m.to.Waking? || m.to.WakeHold?)
    ensures m.to.i == 0 || (s.pc[p].Waking? && m.to.ch == s.pc[p].ch
        && (m.to.i == s.pc[p].i || (s.pc[p].i == p && m.to.i == p + 1)))
    ensures !s.pc[p].ExitZombie? && !s.pc[p].Falling?
  {
  }

  lemma WriteWakes(s: State, s': State, c: nat, p: nat)
    requires LocksOk(s) && RunOk(s) && WriteStep(s, s', c, p) && |s'.pc| == |s.pc| && Shape(s')
    requires WokenBelow(s, p) && s.st[p] == RUNNING
    ensures WokenBelow(s', p)
  {
    hide HeldOk, CtlOk, PcsOk, RunOk, Writes;
    WriteGoes(s, s', c, p);
    if s'.pc[p].Waking? {
      if s.pc[p].Resume? { ResumeGoes(s, s', c, p); }
      WriteWaking(s, s', c, p);
      forall q: nat | q < |s'.pc| && q < s'.pc[p].i ensures !SleepyOn(s', q, s'.pc[p].ch) {
        WriteFalls(s, s', c, p, q, s'.pc[p].ch);
        if q == s.pc[p].i { FallingHoldsLock(s, c, p, q); }
      }
    }
  }

  /** Leaving process i behind, wakeup has made it RUNNABLE if it slept on the channel. */
  lemma WriteWaking(s: State, s': State, c: nat, p: nat)
    requires Shape(s) && WriteStep(s, s', c, p) && |s'.pc| == |s.pc| && Shape(s') && s'.pc[p].Waking?
    requires !s.pc[p].Resume?
    ensures s'.pc[p].i == 0 ||
      (s.pc[p].WakeHold? && s'.pc[p].ch == s.pc[p].ch && s'.pc[p].i == s.pc[p].i + 1 && s.pc[p].i < |s.pc|
       && !(s'.st[s.pc[p].i] == SLEEPING && s'.chan[s.pc[p].i] == s.pc[p].ch)
       && (s.pc[p].i != p ==> s'.pc[s.pc[p].i] == s.pc[s.pc[p].i]))
  {
    if !s.pc[p].WakeHold? { WriteStarts(s, s', c, p); }
  }

  lemma WriteStarts(s: State, s': State, c: nat, p: nat)
    requires Shape(s) && WriteStep(s, s', c, p) && |s'.pc| == |s.pc| && s'.pc[p].Waking? && !s.pc[p].Resume?
    requires !s.pc[p].WakeHold?
    ensures s'.pc[p].i == 0
  {
    hide Writes;
    if s.pc[p].Idle? {
      IdleStarts(s, s', c, p);
    } else if SelfWriter(s.pc[p]) {
      SelfStarts(s, s', c, p);
    } else {
      OtherStartsNone(s, s', c, p);
    }
  }

  lemma IdleStarts(s: State, s': State, c: nat, p: nat)
    requires Shape(s) && WriteStep(s, s', c, p) && |s'.pc| == |s.pc| && s.pc[p].Idle?
    ensures s'.pc[p].Waking? && s'.pc[p].i == 0
  {
    var k: nat :| Unlocks(s, s', c, p, k);
  }

  lemma SelfStarts(s: State, s': State, c: nat, p: nat)
    requires Shape(s) && WriteStep(s, s', c, p) && |s'.pc| == |s.pc| && SelfWriter(s.pc[p]) && !s.pc[p].Idle?
    requires !s.pc[p].Resume?
    ensures s'.pc[p].Waking? ==> s'.pc[p].i == 0
  {
  }

  lemma OtherStartsNone(s: State, s': State, c: nat, p: nat)
    requires Shape(s) && WriteStep(s, s', c, p) && |s'.pc| == |s.pc| && !SelfWriter(s.pc[p]) && !s.pc[p].WakeHold?
    ensures !s'.pc[p].Waking?
  {
  }

  lemma ResumeGoes(s: State, s': State, c: nat, p: nat)
    requires LocksOk(s) && WriteStep(s, s', c, p) && s.pc[p].Resume?
    ensures p < |s'.pc| && !s'.pc[p].Waking?
  {
    hide HeldOk, CtlOk, PcsOk;
    if s.pc[p].next.Back? { StoredPc(s, p); BackIsPlain(s.pc[p].next.pc); }
  }

  lemma SchedulerWakes(s: State, s': State, c: nat, p: nat)
    requires LocksOk(s) && RunOk(s) && SchedulerStep(s, s', c, p) && |s'.pc| == |s.pc| && Shape(s')
    requires p < |s.pc| && WokenBelow(s, p)
    ensures WokenBelow(s', p)
  {
    hide HeldOk, CtlOk, PcsOk, RunOk;
    if !SwitchOut(s, s', c, p) {
      assert s'.pc == s.pc && s'.chan == s.chan
          && forall q :: 0 <= q < |s.st| && s'.st[q] == SLEEPING ==> s.st[q] == SLEEPING;
      assert forall q: nat, ch :: q < |s.pc| && SleepyOn(s', q, ch) ==> SleepyOn(s, q, ch);
    }
  }

  // ---- invariant: interrupts ----

  /** A CPU that holds a spinlock has its interrupts off. */
  ghost predicate IntrOk(s: State) {
    Shape(s) && forall c: nat :: c < |s.ctl| && s.noff[c] > 0 ==> !s.intr[c]
  }

  /** What one lock operation, or none, on CPU c does to the interrupt flag. */
  predicate Counted(s: State, t: State, c: nat)
    requires HasCpu(s, c)
  {
    || (t.noff == s.noff && t.intr == s.intr)
    || (t.noff == s.noff[c := s.noff[c] + 1] && t.intr == s.intr[c := false])
    || (t.noff == s.noff[c := s.noff[c] - 1] && (t.intr == s.intr || (s.noff[c] == 1 && t.intr == s.intr[c := true])))
  }

  lemma StepCounted(s: State, s': State, c: nat, p: nat)
    requires Shape(s) && Step(s, s', c, p)
    ensures HasCpu(s, c) && Counted(s, s', c)
  {
    hide Moves, Writes;
    if WriteStep(s, s', c, p) { WriteCounted(s, s', c, p); }
  }

  lemma WriteCounted(s: State, s': State, c: nat, p: nat)
    requires Shape(s) && WriteStep(s, s', c, p)
    ensures Counted(s, s', c)
  {
    hide Writes, Counted;
    if SelfWriter(s.pc[p]) { WriteSelfCounted(s, s', c, p); } else { WriteOtherCounted(s, s', c, p); }
  }

  lemma WriteSelfCounted(s: State, s': State, c: nat, p: nat)
    requires Shape(s) && WriteStep(s, s', c, p) && SelfWriter(s.pc[p])
    ensures Counted(s, s', c)
  {
    if s.pc[p].Idle? { var k: nat :| Unlocks(s, s', c, p, k); }
  }

  lemma WriteOtherCounted(s: State, s': State, c: nat, p: nat)
    requires Shape(s) && WriteStep(s, s', c, p) && !SelfWriter(s.pc[p])
    ensures Counted(s, s', c)
  {
  }

  lemma StepKeepsIntr(s: State, s': State, c: nat, p: nat)
    requires LocksOk(s) && IntrOk(s) && Step(s, s', c, p) && Shape(s') && |s'.ctl| == |s.ctl|
    ensures IntrOk(s')
  {
    hide LocksOk, Step;
    StepCounted(s, s', c, p);
  }

  // ---- invariant: references ----

  /** At pc, or on the way back to it, a process is at work on sleep lock k. */
  predicate Uses(pc: Pc, k: nat) {
    match pc
    case CondHold(x) => x == k
    case AskHold(x) => x == k
    case SleepHold(lk, _) => lk == CondLock(k)
    case Falling(lk, _) => lk == CondLock(k)
    case Woken(lk) => lk == CondLock(k)
    case Sched(Reacquire(lk)) => lk == CondLock(k)
    case Resume(Reacquire(lk)) => lk == CondLock(k)
    case Waking(_, _, cont) => LockOf(cont) == CondLock(k)
    case WakeHold(_, _, cont) => LockOf(cont) == CondLock(k)
    case YieldHold(b) => Uses(b, k)
    case Sched(Back(b)) => Uses(b, k)
    case Resume(Back(b)) => Uses(b, k)
    case Inner(b, _) => Uses(b, k)
    case IputLock(x) => x == k
    case _ => false
  }

  /**
   Whoever works on a sleep lock or has it has a reference; and an iput that found its reference to be
   the last one still has the only one, and finds the inode unlocked.
   */
  ghost predicate RefOk(s: State) {
    && Shape(s)
    && (forall p: nat, k: nat :: p < |s.pc| && k < |s.free| && Uses(s.pc[p], k) ==> k in s.refs[p])
    && (forall k: nat :: k < |s.free| && !s.free[k] ==> s.lockedBy[k] < |s.refs| && k in s.refs[s.lockedBy[k]])
    && (forall p: nat :: p < |s.pc| && s.pc[p].IputLock? ==> AloneAt(s, p, s.pc[p].k))
  }

  ghost predicate AloneAt(s: State, p: nat, k: nat) {
    && k < |s.free| && k < NINODE && s.free[k]
    && forall q: nat :: q < |s.refs| && q != p ==> k !in s.refs[q]
  }

  lemma MoveUses(s: State, p: nat, m: Move, k: nat)
    requires Shape(s) && p < |s.pc| && Moves(s, p, m) && k < |s.free|
    ensures Uses(m.to, k) ==> Uses(s.pc[p], k) || k in s.refs[p]
    ensures !m.to.IputLock? && !s.pc[p].IputLock?
  {
  }

  lemma WriteUses(s: State, s': State, c: nat, p: nat, k: nat)
    requires Shape(s) && WriteStep(s, s', c, p) && |s'.pc| == |s.pc| && k < |s.free|
    ensures Uses(s'.pc[p], k) ==> Uses(s.pc[p], k) || k in s.refs[p]
  {
    hide Writes, Uses;
    if s.pc[p].Idle? {
      WriteIdleUses(s, s', c, p, k);
    } else if s.pc[p].Resume? {
      WriteResumeUses(s, s', c, p, k);
    } else if SelfWriter(s.pc[p]) {
      WriteSelfUses(s, s', c, p, k);
    } else {
      WriteOtherUses(s, s', c, p, k);
    }
  }

  lemma WriteSelfUses(s: State, s': State, c: nat, p: nat, k: nat)
    requires Shape(s) && WriteStep(s, s', c, p) && SelfWriter(s.pc[p]) && !s.pc[p].Idle? && !s.pc[p].Resume?
    requires |s'.pc| == |s.pc|
    ensures Uses(s'.pc[p], k) ==> Uses(s.pc[p], k)
  {
  }

  lemma WriteOtherUses(s: State, s': State, c: nat, p: nat, k: nat)
    requires Shape(s) && WriteStep(s, s', c, p) && !SelfWriter(s.pc[p]) && |s'.pc| == |s.pc|
    ensures Uses(s'.pc[p], k) ==> Uses(s.pc[p], k)
  {
  }

  lemma WriteIdleUses(s: State, s': State, c: nat, p: nat, k: nat)
    requires Shape(s) && WriteStep(s, s', c, p) && s.pc[p].Idle? && |s'.pc| == |s.pc|
    ensures Uses(s'.pc[p], k) ==> k in s.refs[p]
  {
    var j: nat :| Unlocks(s, s', c, p, j);
  }

  lemma WriteResumeUses(s: State, s': State, c: nat, p: nat, k: nat)
    requires Shape(s) && WriteStep(s, s', c, p) && s.pc[p].Resume? && |s'.pc| == |s.pc|
    ensures Uses(s'.pc[p], k) ==> Uses(s.pc[p], k)
  {
  }

  /** A write takes sleep lock k only at CondHold(k), and touches no reference. */
  lemma WriteOwners(s: State, s': State, c: nat, p: nat, k: nat)
    requires Shape(s) && WriteStep(s, s', c, p) && k < |s.free|
    ensures s'.refs == s.refs && |s'.free| == |s.free| && |s'.lockedBy| == |s.lockedBy|
    ensures s'.free[k] || (s.pc[p] == CondHold(k) && s'.lockedBy[k] == p)
        || (!s.free[k] && s'.lockedBy[k] == s.lockedBy[k])
    ensures s'.free[k] || s.pc[p] == CondHold(k) || !s.free[k]
  {
    match s.pc[p]
    case Idle => var j: nat :| Unlocks(s, s', c, p, j);
    case _ =>
  }

  lemma WriteRefs(s: State, s': State, c: nat, p: nat)
    requires Shape(s) && WriteStep(s, s', c, p)
    ensures s'.refs == s.refs
  {
    match s.pc[p]
    case Idle => var j: nat :| Unlocks(s, s', c, p, j);
    case _ =>
  }

  lemma MoveKeepsRefs(s: State, s': State, c: nat, p: nat)
    requires RefOk(s) && MoveStep(s, s', c, p)
    ensures RefOk(s')
  {
    hide Moves, Uses, AloneAt;
    var m :| Moves(s, p, m) && Made(s, s', c, p, m);
    forall q: nat, k: nat | q < |s'.pc| && k < |s'.free| && Uses(s'.pc[q], k) ensures k in s'.refs[q] {
      if q == p { MoveUses(s, p, m, k); }
    }
    MoveNoIput(s, p, m);
    forall q: nat | q < |s'.pc| && s'.pc[q].IputLock? ensures AloneAt(s', q, s'.pc[q].k) {
      assert AloneAt(s, q, s.pc[q].k);
      AloneFacts(s, q, s.pc[q].k);
      StillAlone(s, s', q, s.pc[q].k);
    }
  }

  lemma MoveNoIput(s: State, p: nat, m: Move)
    requires Shape(s) && p < |s.pc| && Moves(s, p, m)
    ensures !m.to.IputLock?
  {
  }

  lemma StillAlone(s: State, t: State, p: nat, k: nat)
    requires AloneAt(s, p, k) && |t.free| == |s.free| && t.free[k] && t.refs == s.refs
    ensures AloneAt(t, p, k)
  {
  }

  lemma WriteKeepsRefs(s: State, s': State, c: nat, p: nat)
    requires LocksOk(s) && RefOk(s) && WriteStep(s, s', c, p) && Shape(s') && |s'.pc| == |s.pc| && |s'.free| == |s.free|
    ensures RefOk(s')
  {
    hide Writes, Uses, AloneAt, HeldOk, CtlOk, PcsOk;
    WriteRefs(s, s', c, p);
    WriteGoes(s, s', c, p);
    forall q: nat, k: nat | q < |s'.pc| && k < |s'.free| && Uses(s'.pc[q], k) ensures k in s'.refs[q] {
      if q == p { WriteUses(s, s', c, p, k); } else if s'.pc[q] != s.pc[q] { NewUsesNone(k); }
    }
    forall k: nat | k < |s'.free| && !s'.free[k] ensures s'.lockedBy[k] < |s'.refs| && k in s'.refs[s'.lockedBy[k]] {
      WriteOwners(s, s', c, p, k);
      if s.pc[p] == CondHold(k) { UsesHere(k); }
    }
    forall q: nat | q < |s'.pc| && s'.pc[q].IputLock? ensures AloneAt(s', q, s'.pc[q].k) {
      var k := s.pc[q].k;
      assert AloneAt(s, q, k);
      AloneFacts(s, q, k);
      WriteOwners(s, s', c, p, k);
      if s.pc[p] == CondHold(k) { UsesHere(k); }
      StillAlone(s, s', q, k);
    }
  }

  lemma NewUsesNone(k: nat)
    ensures !Uses(Resume(Forkret), k)
  {
  }

  lemma UsesHere(k: nat)
    ensures Uses(CondHold(k), k)
  {
  }

  lemma AloneFacts(s: State, p: nat, k: nat)
    requires AloneAt(s, p, k)
    ensures k < |s.free| && s.free[k] && forall q: nat :: q < |s.refs| && q != p ==> k !in s.refs[q]
  {
  }

  lemma SchedulerKeepsRefs(s: State, s': State, c: nat, p: nat)
    requires RefOk(s) && SchedulerStep(s, s', c, p) && Shape(s') && |s'.pc| == |s.pc|
    ensures RefOk(s')
  {
    hide Uses, AloneAt;
    assert s'.free == s.free && s'.lockedBy == s.lockedBy && s'.refs == s.refs;
    forall q: nat, k: nat | q < |s'.pc| && k < |s'.free| && Uses(s'.pc[q], k) ensures k in s'.refs[q] {
      if s'.pc[q] != s.pc[q] { SwitchUses(s.pc[q].next, k); }
    }
    forall q: nat | q < |s'.pc| && s'.pc[q].IputLock? ensures AloneAt(s', q, s'.pc[q].k) {
      AloneFacts(s, q, s.pc[q].k);
      StillAlone(s, s', q, s.pc[q].k);
    }
  }

  lemma SwitchUses(next: After, k: nat)
    ensures Uses(Resume(next), k) == Uses(Sched(next), k)
  {
  }

  lemma StepKeepsRefs(s: State, s': State, c: nat, p: nat)
    requires LocksOk(s) && RefOk(s) && Step(s, s', c, p) && Shape(s') && |s'.pc| == |s.pc| && |s'.free| == |s.free|
    ensures RefOk(s')
  {
    hide HeldOk, CtlOk, PcsOk, RefOk, MoveStep, WriteStep, SchedulerStep;
    if MoveStep(s, s', c, p) {
      MoveKeepsRefs(s, s', c, p);
    } else if WriteStep(s, s', c, p) {
      WriteKeepsRefs(s, s', c, p);
    } else {
      SchedulerKeepsRefs(s, s', c, p);
    }
  }

  /** A reference is had from the table, under its lock, or from another holder: never behind iput's back. */
  lemma RefsKeepRefs(s: State, s': State, c: nat, p: nat)
    requires LocksOk(s) && RunOk(s) && ForkOk(s) && RefOk(s) && RefStep(s, s', c, p)
    ensures RefOk(s') && SameBut(s, s')
  {
    hide HeldOk, CtlOk, PcsOk, RunOk, Uses, AloneAt, GetsRef, SharesRef, PutsRef;
    var k: nat :| GetsRef(s, s', p, k) || SharesRef(s, s', p, k) || PutsRef(s, s', p, k);
    RefChange(s, s', p, k);
    forall q: nat | q < |s'.pc| && s'.pc[q].IputLock? ensures AloneAt(s', q, s'.pc[q].k) {
      AloneFacts(s, q, s.pc[q].k);
      if s.pc[q].k == k { GetsElsewhere(s, s', c, p, q, k); }
      AloneStays(s, s', q, s.pc[q].k, k);
    }
    forall q: nat, x: nat | q < |s'.pc| && x < |s'.free| && Uses(s'.pc[q], x) ensures x in s'.refs[q] {
      if q == p { InnerUsesNone(s.pc[p], x); }
    }
  }

  /** Only p's references shrink, by one that it has not locked; anyone's grow only by k. */
  lemma RefChange(s: State, s': State, p: nat, k: nat)
    requires Shape(s) && p < |s.pc| && (GetsRef(s, s', p, k) || SharesRef(s, s', p, k) || PutsRef(s, s', p, k))
    ensures SameBut(s, s') && s.pc[p].Inner? && (s.pc[p].back.Idle? || s.pc[p].back.ForkFill?)
    ensures forall q: nat :: q < |s.refs| ==> s'.refs[q] <= s.refs[q] + {k} && (q != p ==> s.refs[q] <= s'.refs[q])
    ensures s.refs[p] <= s'.refs[p]
        || (s.refs[p] <= s'.refs[p] + {k} && (k < |s.free| ==> s.free[k] || s.lockedBy[k] != p))
    ensures PutsRef(s, s', p, k) ==> forall q: nat :: q < |s.refs| ==> s'.refs[q] <= s.refs[q]
  {
  }

  lemma InnerUsesNone(pc: Pc, k: nat)
    ensures pc.Inner? && (pc.back.Idle? || pc.back.ForkFill?) ==> !Uses(pc, k)
  {
  }

  lemma AloneStays(s: State, t: State, p: nat, k: nat, x: nat)
    requires AloneAt(s, p, k) && t.free == s.free && |t.refs| == |s.refs|
    requires forall q: nat :: q < |s.refs| ==> t.refs[q] <= s.refs[q] || (k != x && t.refs[q] <= s.refs[q] + {x})
    ensures AloneAt(t, p, k)
  {
  }

  lemma GetsElsewhere(s: State, s': State, c: nat, p: nat, q: nat, k: nat)
    requires LocksOk(s) && RunOk(s) && RefStep(s, s', c, p) && q < |s.pc| && s.pc[q] == IputLock(k) && AloneAt(s, q, k)
    requires GetsRef(s, s', p, k) || SharesRef(s, s', p, k) || PutsRef(s, s', p, k)
    ensures PutsRef(s, s', p, k)
  {
    hide HeldOk, CtlOk, PcsOk, RunOk;
    if GetsRef(s, s', p, k) { TableElsewhere(s, c, p, q, k); }
  }

  lemma TableElsewhere(s: State, c: nat, p: nat, q: nat, k: nat)
    requires LocksOk(s) && RunOk(s) && c < |s.ctl| && s.ctl[c] == Run(p) && p < |s.pc| && q < |s.pc|
    requires s.pc[q] == IputLock(k)
    ensures s.pc[p] != Inner(Idle, ITABLE)
  {
    hide HeldOk, CtlOk, PcsOk;
    if s.pc[p] == Inner(Idle, ITABLE) {
      var d: nat :| d < |s.ctl| && s.ctl[d] == Run(q);
      OneHolder(s, c, d, InnerLock(ITABLE));
    }
  }

  // ---- nested locks keep the invariants ----

  /** pcs between which the nested steps move. */
  predicate Still(pc: Pc) {
    Outer(pc) || pc.Inner? || pc.IputLock?
  }

  /** What a nested step leaves alone. */
  ghost predicate NestFrame(s: State, t: State, p: nat) {
    && Shape(s) && Shape(t) && p < |s.pc| == |t.pc| && |t.free| == |s.free|
    && t.st == s.st && t.chan == s.chan && t.parent == s.parent && t.ctl == s.ctl && t.saved == s.saved
    && t.refs == s.refs
    && t.pc == s.pc[p := t.pc[p]] && Still(s.pc[p]) && Still(t.pc[p])
    && Target(t.pc[p]) == Target(s.pc[p]) && Scanned(t.pc[p], |s.pc|) == Scanned(s.pc[p], |s.pc|)
    && forall k: nat :: k < |s.free| && t.free[k] ==> s.free[k]
  }

  /** A nested step takes or gives the lock l, and nothing else. */
  ghost predicate Nested(s: State, t: State, c: nat, p: nat, l: Lock, take: bool) {
    && NestFrame(s, t, p) && c < |s.ctl| && PcOk(t.pc[p], |t.pc|)
    && if take then
         && l !in s.locks && t.locks == s.locks[l := c] && t.noff == s.noff[c := s.noff[c] + 1]
         && Holds(t.pc[p], p) == Holds(s.pc[p], p) + {l}
       else
         && l in Holds(s.pc[p], p) && t.locks == s.locks - {l} && t.noff == s.noff[c := s.noff[c] - 1]
         && Holds(t.pc[p], p) == Holds(s.pc[p], p) - {l}
  }

  lemma EnterNested(s: State, s': State, c: nat, p: nat, j: nat)
    requires Shape(s) && c < |s.ctl| && p < |s.pc| && Enter(s, s', c, p, j)
    ensures Nested(s, s', c, p, InnerLock(j), true)
  {
    hide Holds, PcOk, Target, Scanned;
    OuterHolds(s.pc[p], p, j, |s.pc|);
  }

  lemma LeaveNested(s: State, s': State, c: nat, p: nat)
    requires Shape(s) && c < |s.ctl| && p < |s.pc| && Leave(s, s', c, p) && Outer(s.pc[p].back)
    ensures Nested(s, s', c, p, InnerLock(s.pc[p].j), false)
  {
    hide Holds, PcOk, Target, Scanned;
    assert s.pc[p] == Inner(s.pc[p].back, s.pc[p].j);
    OuterHolds(s.pc[p].back, p, s.pc[p].j, |s.pc|);
    assert s'.pc == s.pc[p := s'.pc[p]];
  }

  lemma TakeNested(s: State, s': State, c: nat, p: nat, k: nat)
    requires Shape(s) && c < |s.ctl| && p < |s.pc| && IputTake(s, s', c, p, k)
    ensures Nested(s, s', c, p, CondLock(k), true)
  {
    hide LastRef, Holds, PcOk, Target, Scanned;
    IputHolds(p, k, |s.pc|);
  }

  lemma GotNested(s: State, s': State, c: nat, p: nat)
    requires Shape(s) && c < |s.ctl| && p < |s.pc| && IputGot(s, s', c, p)
    ensures Nested(s, s', c, p, CondLock(s.pc[p].k), false)
  {
    hide Holds, PcOk, Target, Scanned;
    IputHolds(p, s.pc[p].k, |s.pc|);
    assert s.pc[p] == IputLock(s.pc[p].k);
  }

  lemma IputHolds(p: nat, k: nat, n: nat)
    ensures Holds(IputLock(k), p) == Holds(Inner(Idle, ITABLE), p) + {CondLock(k)}
    ensures CondLock(k) in Holds(IputLock(k), p)
    ensures Holds(Inner(Idle, ITABLE), p) == Holds(IputLock(k), p) - {CondLock(k)}
    ensures PcOk(IputLock(k), n) && PcOk(Inner(Idle, ITABLE), n)
    ensures Target(IputLock(k)) == Target(Inner(Idle, ITABLE))
    ensures Scanned(IputLock(k), n) == Scanned(Inner(Idle, ITABLE), n)
  {
  }

  lemma NestIs(s: State, s': State, c: nat, p: nat) returns (l: Lock, take: bool)
    requires LocksOk(s) && NestStep(s, s', c, p)
    ensures Nested(s, s', c, p, l, take)
  {
    hide HeldOk, CtlOk, LastRef, Nested, Enter, IputTake;
    assert PcOk(s.pc[p], |s.pc|);
    if j: nat :| Enter(s, s', c, p, j) {
      EnterNested(s, s', c, p, j);
      return InnerLock(j), true;
    } else if k: nat :| IputTake(s, s', c, p, k) {
      TakeNested(s, s', c, p, k);
      return CondLock(k), true;
    } else if IputGot(s, s', c, p) {
      GotNested(s, s', c, p);
      return CondLock(s.pc[p].k), false;
    } else {
      LeaveNested(s, s', c, p);
      return InnerLock(s.pc[p].j), false;
    }
  }

  lemma NestKeepsLocks(s: State, s': State, c: nat, p: nat, l: Lock, take: bool)
    requires LocksOk(s) && c < |s.ctl| && s.ctl[c] == Run(p) && Nested(s, s', c, p, l, take)
    ensures LocksOk(s')
  {
    hide HeldOk, Aside, NestFrame, Holds, PcOk;
    NestParts(s, s', p);
    OthersAside(s, s', c, p);
    if take { TakeKeepsHeld(s, s', c, l); } else { GiveKeepsHeld(s, s', c, l); }
  }

  lemma OuterHolds(pc: Pc, p: nat, j: nat, n: nat)
    requires Outer(pc)
    ensures InnerLock(j) in Holds(Inner(pc, j), p) && Holds(Inner(pc, j), p) == Holds(pc, p) + {InnerLock(j)}
    ensures Holds(pc, p) == Holds(Inner(pc, j), p) - {InnerLock(j)}
    ensures PcOk(pc, n) && PcOk(Inner(pc, j), n) && Scanned(Inner(pc, j), n) == Scanned(pc, n)
    ensures Target(Inner(pc, j)) == Target(pc)
  {
  }

  lemma NestParts(s: State, t: State, p: nat)
    requires NestFrame(s, t, p)
    ensures Shape(s) && Shape(t) && p < |s.pc| == |t.pc| && t.ctl == s.ctl && t.pc == s.pc[p := t.pc[p]] && t.st == s.st
    ensures Still(s.pc[p]) && Still(t.pc[p])
  {
  }

  /** A wakeup under way is on another CPU, and stays where it is. */
  lemma NestAhead(s: State, s': State, c: nat, p: nat, l: Lock, ch: Chan)
    requires LocksOk(s) && LocksOk(s') && c < |s.ctl| && s.ctl[c] == Run(p) && NestFrame(s, s', p)
    requires WakeAt(s, l, ch) < |s.pc|
    ensures WakeAt(s', l, ch) == WakeAt(s, l, ch)
  {
    hide HeldOk, PcsOk;
    WakerIs(s, l, ch);
    WakeAtHolder(s', l, ch, s.locks[l], s.ctl[s.locks[l]].p);
  }

  lemma NestSleepy(s: State, t: State, p: nat, q: nat, ch: Chan)
    requires NestFrame(s, t, p) && q < |s.pc|
    ensures SleepyOn(t, q, ch) == SleepyOn(s, q, ch)
  {
  }

  lemma NestKeepsCond(s: State, s': State, c: nat, p: nat)
    requires LocksOk(s) && LocksOk(s') && CondOk(s) && c < |s.ctl| && s.ctl[c] == Run(p) && NestFrame(s, s', p)
    ensures CondOk(s')
  {
    hide LocksOk, SleepyOn, WakeAt;
    forall k: nat, q: nat | k < |s'.free| && q < |s'.pc| && s'.free[k] && SleepyOn(s', q, CondChan(k, 0))
      ensures WakeAt(s', CondLock(k), CondChan(k, 0)) <= q
    {
      NestSleepy(s, s', p, q, CondChan(k, 0));
      NestAhead(s, s', c, p, CondLock(k), CondChan(k, 0));
    }
  }

  lemma NestKeepsWait(s: State, s': State, c: nat, p: nat)
    requires LocksOk(s) && LocksOk(s') && WaitOk(s) && c < |s.ctl| && s.ctl[c] == Run(p) && NestFrame(s, s', p)
    ensures WaitOk(s')
  {
    hide LocksOk, SleepyOn, WakeAt, NestFrame, Scanned;
    NestParts(s, s', p);
    forall q: nat, ch | q < |s.pc| ensures SleepyOn(s', q, ch) == SleepyOn(s, q, ch) { NestSleepy(s, s', p, q, ch); }
    forall w: nat, q: nat | q < |s.pc| ensures ZombieChild(s', w, q) == ZombieChild(s, w, q) {
      NestChild(s, s', p, w, q);
    }
    forall w: nat | w < |s.pc| ensures Scanned(s'.pc[w], |s.pc|) == Scanned(s.pc[w], |s.pc|) { NestScan(s, s', p, w); }
    if WakeAt(s, WaitLock, ProcChan(INIT)) < |s.pc| { NestAhead(s, s', c, p, WaitLock, ProcChan(INIT)); }
    NestExit(s, s', p);
  }

  lemma NestChild(s: State, t: State, p: nat, w: nat, q: nat)
    requires NestFrame(s, t, p) && q < |s.pc|
    ensures ZombieChild(t, w, q) == ZombieChild(s, w, q)
  {
  }

  lemma NestScan(s: State, t: State, p: nat, w: nat)
    requires NestFrame(s, t, p) && w < |s.pc|
    ensures Scanned(t.pc[w], |s.pc|) == Scanned(s.pc[w], |s.pc|)
  {
  }

  lemma NestExit(s: State, t: State, p: nat)
    requires ExitOk(s) && NestFrame(s, t, p)
    requires forall q: nat, ch :: q < |s.pc| ==> SleepyOn(t, q, ch) == SleepyOn(s, q, ch)
    ensures ExitOk(t)
  {
    hide SleepyOn;
    forall e: nat | e < |t.pc| && Exiting(t.pc[e]) ensures ExitsWell(t, e) { assert ExitsWell(s, e); }
    ExitsAll(t);
  }

  lemma NestKeepsWoke(s: State, t: State, p: nat)
    requires WokeOk(s) && NestFrame(s, t, p)
    ensures WokeOk(t)
  {
    hide SleepyOn;
    forall q: nat, ch | q < |s.pc| ensures SleepyOn(t, q, ch) == SleepyOn(s, q, ch) { NestSleepy(s, t, p, q, ch); }
    forall e: nat | e < |t.pc| ensures WokenBelow(t, e) { assert WokenBelow(s, e); }
  }

  lemma NestKeepsRefs(s: State, s': State, c: nat, p: nat)
    requires LocksOk(s) && RefOk(s) && NestStep(s, s', c, p) && NestFrame(s, s', p)
    ensures RefOk(s')
  {
    hide HeldOk, CtlOk, LastRef, NestFrame, RefOk, Enter, IputTake, IputGot;
    NestParts(s, s', p);
    assert PcOk(s.pc[p], |s.pc|);
    if j: nat :| Enter(s, s', c, p, j) {
      EnterRefs(s, s', c, p, j);
    } else if k: nat :| IputTake(s, s', c, p, k) {
      TakeRefs(s, s', c, p, k);
    } else if IputGot(s, s', c, p) {
      GotRefs(s, s', c, p);
    } else {
      LeaveRefs(s, s', c, p);
    }
  }

  lemma EnterRefs(s: State, s': State, c: nat, p: nat, j: nat)
    requires RefOk(s) && c < |s.ctl| && p < |s.pc| && Enter(s, s', c, p, j)
    ensures RefOk(s')
  {
    hide Uses, AloneAt;
    NestUses(s.pc[p], j);
    OthersAlone(s, s', p);
  }

  lemma LeaveRefs(s: State, s': State, c: nat, p: nat)
    requires RefOk(s) && c < |s.ctl| && p < |s.pc| && Leave(s, s', c, p) && Outer(s.pc[p].back)
    ensures RefOk(s')
  {
    hide Uses, AloneAt;
    NestUses(s.pc[p].back, s.pc[p].j);
    OthersAlone(s, s', p);
  }

  lemma TakeRefs(s: State, s': State, c: nat, p: nat, k: nat)
    requires RefOk(s) && c < |s.ctl| && p < |s.pc| && IputTake(s, s', c, p, k)
    ensures RefOk(s')
  {
    hide Uses, AloneAt, LastRef;
    LastIsAlone(s, s', p, k);
    OthersAlone(s, s', p);
  }

  lemma GotRefs(s: State, s': State, c: nat, p: nat)
    requires RefOk(s) && c < |s.ctl| && p < |s.pc| && IputGot(s, s', c, p)
    ensures RefOk(s')
  {
    hide Uses, AloneAt;
    GotUses(s, p);
    OthersAlone(s, s', p);
  }

  lemma OthersAlone(s: State, t: State, p: nat)
    requires RefOk(s) && p < |s.pc| == |t.pc| && |t.free| == |s.free| && t.refs == s.refs && t.pc == s.pc[p := t.pc[p]]
    requires forall k: nat :: k < |s.free| && s.free[k] && !t.free[k] ==> s.pc[p] == IputLock(k)
    ensures forall q: nat :: q < |s.pc| && q != p && s.pc[q].IputLock? ==> AloneAt(t, q, s.pc[q].k)
  {
    hide Uses;
    forall q: nat | q < |s.pc| && q != p && s.pc[q].IputLock? ensures AloneAt(t, q, s.pc[q].k) {
      var k := s.pc[q].k;
      assert AloneAt(s, q, k);
      if !t.free[k] { AtOwnRef(s, p, k); }
    }
  }

  lemma AtOwnRef(s: State, p: nat, k: nat)
    requires RefOk(s) && p < |s.pc| && s.pc[p] == IputLock(k) && k < |s.free|
    ensures k in s.refs[p]
  {
    assert Uses(s.pc[p], k);
  }

  lemma NestUses(pc: Pc, j: nat)
    ensures forall k: nat :: Uses(Inner(pc, j), k) == Uses(pc, k)
  {
  }

  lemma LastIsAlone(s: State, t: State, p: nat, k: nat)
    requires RefOk(s) && p < |s.pc| && LastRef(s, p, k) && t.free == s.free && t.refs == s.refs
    ensures AloneAt(t, p, k) && forall x: nat :: Uses(IputLock(k), x) ==> x in s.refs[p]
  {
  }

  lemma GotUses(s: State, p: nat)
    requires RefOk(s) && p < |s.pc| && s.pc[p].IputLock?
    ensures s.pc[p].k < |s.free| && s.pc[p].k in s.refs[p] && forall x: nat :: !Uses(Inner(Idle, ITABLE), x)
    ensures forall q: nat :: q < |s.pc| && q != p && s.pc[q].IputLock? ==> s.pc[q].k != s.pc[p].k
  {
    assert Uses(s.pc[p], s.pc[p].k);
    forall q: nat | q < |s.pc| && q != p && s.pc[q].IputLock? ensures s.pc[q].k != s.pc[p].k {
      assert AloneAt(s, q, s.pc[q].k);
    }
  }

  lemma NestKeepsIntr(s: State, s': State, c: nat, p: nat)
    requires IntrOk(s) && NestStep(s, s', c, p) && Shape(s')
    ensures IntrOk(s')
  {
    hide LastRef, Nests;
    NestCounted(s, s', c, p);
  }

  lemma NestCounted(s: State, s': State, c: nat, p: nat)
    requires Shape(s) && NestStep(s, s', c, p)
    ensures HasCpu(s, c) && Counted(s, s', c)
  {
    hide LastRef, Nests;
    if j: nat :| Enter(s, s', c, p, j) {
    } else if k: nat :| IputTake(s, s', c, p, k) {
    }
  }

  // ---- every run ----

  ghost predicate Inv(s: State) {
    LocksOk(s) && RunOk(s) && ForkOk(s) && CondOk(s) && WaitOk(s) && WokeOk(s) && IntrOk(s) && RefOk(s)
  }

  /** Turning interrupts on or off where no lock is held touches nothing the invariants speak of. */
  lemma ToggleKeepsInv(s: State, s': State, c: nat)
    requires Inv(s) && Toggle(s, s', c)
    ensures Inv(s') && |s'.pc| == |s.pc| && |s'.free| == |s.free| && |s'.ctl| == |s.ctl|
  {
    hide LocksOk, RunOk, ForkOk, CondOk, WaitOk, WokeOk, RefOk;
    FlagKeepsLocks(s, s');
    FlagKeepsSleepers(s, s');
    FlagKeepsWait(s, s');
    FlagKeepsRefs(s, s');
  }

  lemma FlagKeepsRefs(s: State, t: State)
    requires RefOk(s) && SameBut(s, t) && t.refs == s.refs
    ensures RefOk(t)
  {
    hide Uses;
  }

  /** Nothing differs but interrupt flags and references. */
  predicate SameBut(s: State, t: State) {
    t == s.(intr := t.intr, refs := t.refs) && |t.intr| == |s.intr| && |t.refs| == |s.refs|
  }

  /** Neither does taking or dropping a reference, apart from the books of references. */
  lemma RefStepKeepsInv(s: State, s': State, c: nat, p: nat)
    requires Inv(s) && RefStep(s, s', c, p)
    ensures Inv(s') && |s'.pc| == |s.pc| && |s'.free| == |s.free| && |s'.ctl| == |s.ctl|
  {
    hide LocksOk, RunOk, ForkOk, CondOk, WaitOk, WokeOk, RefOk;
    RefsKeepRefs(s, s', c, p);
    FlagKeepsLocks(s, s');
    FlagKeepsSleepers(s, s');
    FlagKeepsWait(s, s');
  }

  lemma FlagKeepsLocks(s: State, t: State)
    requires LocksOk(s) && RunOk(s) && ForkOk(s) && SameBut(s, t)
    ensures LocksOk(t) && RunOk(t) && ForkOk(t)
  {
    hide HeldBy, PcOk, RunOk, ForkOk;
    assert forall c: nat :: c < |s.ctl| ==> HeldBy(t, c) == HeldBy(s, c) by { FlagHeldBy(s, t); }
    FlagKeepsRun(s, t);
  }

  lemma FlagHeldBy(s: State, t: State)
    requires SameBut(s, t)
    ensures forall c: nat :: c < |s.ctl| ==> HeldBy(t, c) == HeldBy(s, c)
  {
    hide Holds;
  }

  lemma FlagKeepsRun(s: State, t: State)
    requires RunOk(s) && ForkOk(s) && SameBut(s, t)
    ensures RunOk(t) && ForkOk(t)
  {
    hide Target;
    forall q: nat | q < |t.st| && (t.st[q] == RUNNING || !t.pc[q].Resume?)
      ensures exists d: nat :: d < |t.ctl| && t.ctl[d] == Run(q)
    {
      var d: nat :| d < |s.ctl| && s.ctl[d] == Run(q);
      assert t.ctl[d] == Run(q);
    }
  }

  lemma FlagKeepsSleepers(s: State, t: State)
    requires CondOk(s) && WokeOk(s) && SameBut(s, t)
    ensures CondOk(t) && WokeOk(t)
  {
    hide SleepyOn, WakeAt;
    forall l, ch ensures WakeAt(t, l, ch) == WakeAt(s, l, ch) { FlagWakeAt(s, t, l, ch); }
    forall q: nat, ch | q < |s.pc| ensures SleepyOn(t, q, ch) == SleepyOn(s, q, ch) { FlagSleepy(s, t, q, ch); }
    forall e: nat | e < |t.pc| ensures WokenBelow(t, e) { assert WokenBelow(s, e); }
  }

  lemma FlagKeepsWait(s: State, t: State)
    requires WaitOk(s) && SameBut(s, t)
    ensures WaitOk(t)
  {
    hide SleepyOn, WakeAt;
    forall l, ch ensures WakeAt(t, l, ch) == WakeAt(s, l, ch) { FlagWakeAt(s, t, l, ch); }
    forall q: nat, ch | q < |s.pc| ensures SleepyOn(t, q, ch) == SleepyOn(s, q, ch) { FlagSleepy(s, t, q, ch); }
    forall p: nat, q: nat | q < |s.pc| ensures ZombieChild(t, p, q) == ZombieChild(s, p, q) { }
  }

  lemma FlagWakeAt(s: State, t: State, l: Lock, ch: Chan)
    requires SameBut(s, t)
    ensures WakeAt(t, l, ch) == WakeAt(s, l, ch)
  {
  }

  lemma FlagSleepy(s: State, t: State, q: nat, ch: Chan)
    requires Shape(s) && Shape(t) && SameBut(s, t) && q < |s.pc|
    ensures SleepyOn(t, q, ch) == SleepyOn(s, q, ch)
  {
  }

  lemma NestKeepsInv(s: State, s': State, c: nat, p: nat)
    requires Inv(s) && NestStep(s, s', c, p)
    ensures Inv(s') && |s'.pc| == |s.pc| && |s'.free| == |s.free| && |s'.ctl| == |s.ctl|
  {
    hide HeldOk, CtlOk, PcsOk, RunOk, ForkOk, CondOk, WaitOk, WokeOk, RefOk, IntrOk, NestFrame, Enter, Leave,
        IputTake, IputGot;
    var l, take := NestIs(s, s', c, p);
    NestParts(s, s', p);
    NestSizes(s, s', p);
    NestKeepsLocks(s, s', c, p, l, take);
    QuietKeepsRun(s, s', c, p);
    NestKeepsFork(s, s', p);
    NestKeepsCond(s, s', c, p);
    NestKeepsWait(s, s', c, p);
    NestKeepsWoke(s, s', p);
    NestKeepsRefs(s, s', c, p);
    NestKeepsIntr(s, s', c, p);
  }

  lemma NestSizes(s: State, t: State, p: nat)
    requires NestFrame(s, t, p)
    ensures |t.free| == |s.free| && |t.ctl| == |s.ctl|
  {
  }

  lemma NestKeepsFork(s: State, t: State, p: nat)
    requires ForkOk(s) && NestFrame(s, t, p)
    ensures ForkOk(t)
  {
    hide ForkOk;
    ForkQuiet(s, t, p);
  }

  lemma InitInv(s: State)
    requires Init(s)
    ensures Inv(s)
  {
    hide SleepyOn, WakeAt;
    assert forall c: nat :: c < |s.ctl| ==> HeldBy(s, c) == {};
    forall q: nat, ch | q < |s.pc| ensures !SleepyOn(s, q, ch) { NobodySleeps(s, q, ch); }
    assert PcOk(Idle, |s.pc|);
  }

  lemma NobodySleeps(s: State, q: nat, ch: Chan)
    requires Init(s) && q < |s.pc|
    ensures !SleepyOn(s, q, ch)
  {
  }

  /** No step adds a process, a CPU or a sleep lock. */
  lemma SameSizes(s: State, s': State, c: nat, p: nat)
    requires Shape(s) && Step(s, s', c, p)
    ensures |s'.pc| == |s.pc| && |s'.free| == |s.free| && |s'.ctl| == |s.ctl|
  {
    hide Moves, Writes;
    if WriteStep(s, s', c, p) { WriteSizes(s, s', c, p); }
  }

  lemma WriteSizes(s: State, s': State, c: nat, p: nat)
    requires Shape(s) && WriteStep(s, s', c, p)
    ensures |s'.pc| == |s.pc| && |s'.free| == |s.free| && |s'.ctl| == |s.ctl|
  {
    match s.pc[p]
    case Idle => var k: nat :| Unlocks(s, s', c, p, k);
    case _ =>
  }

  lemma StepKeepsLocks(s: State, s': State, c: nat, p: nat)
    requires LocksOk(s) && RunOk(s) && ForkOk(s) && Step(s, s', c, p)
    ensures LocksOk(s') && RunOk(s')
  {
    hide PcsOk, HeldOk, CtlOk, RunOk, ForkOk, Moves, Writes;
    if MoveStep(s, s', c, p) {
      MoveKeepsLocks(s, s', c, p);
      MoveKeepsRun(s, s', c, p);
    } else if WriteStep(s, s', c, p) {
      if s.pc[p].ForkSet? { ForkSetKeepsLocks(s, s', c, p); } else { WriteKeepsLocks(s, s', c, p); }
      WriteKeepsRun(s, s', c, p);
    } else {
      SchedulerKeepsLocks(s, s', c, p);
      SchedulerKeepsRun(s, s', c, p);
    }
  }

  lemma StepKeepsInv(s: State, s': State, c: nat, p: nat)
    requires Inv(s) && Step(s, s', c, p)
    ensures Inv(s') && |s'.pc| == |s.pc| && |s'.free| == |s.free| && |s'.ctl| == |s.ctl|
  {
    hide PcsOk, HeldOk, CtlOk, RunOk, ForkOk, CondOk, NoZombieWaits, ScanOk, ExitOk, WokeOk, IntrOk, RefOk, Moves,
        Writes;
    SameSizes(s, s', c, p);
    StepKeepsLocks(s, s', c, p);
    StepKeepsFork(s, s', c, p);
    StepKeepsCond(s, s', c, p);
    StepKeepsNoZombieWaits(s, s', c, p);
    StepKeepsScan(s, s', c, p);
    StepKeepsExit(s, s', c, p);
    StepKeepsWoke(s, s', c, p);
    StepKeepsIntr(s, s', c, p);
    StepKeepsRefs(s, s', c, p);
  }

  /** A run of the machine from boot. */
  ghost predicate Execution(t: seq<State>) {
    |t| > 0 && Init(t[0]) && forall i :: 0 <= i < |t| - 1 ==> Next(t[i], t[i + 1])
  }

  lemma {:induction false} ExecutionInv(t: seq<State>, i: nat)
    requires Execution(t) && i < |t|
    ensures Inv(t[i]) && |t[i].pc| == |t[0].pc| && |t[i].ctl| == |t[0].ctl| && |t[i].free| == |t[0].free|
    decreases i
  {
    hide Init, Inv, Next;
    if i == 0 {
      InitInv(t[0]);
    } else {
      ExecutionInv(t, i - 1);
      assert Next(t[i - 1], t[i - 1 + 1]);
      NextKeepsInv(t[i - 1], t[i]);
    }
  }

  lemma NextKeepsInv(s: State, s': State)
    requires Inv(s) && Next(s, s')
    ensures Inv(s') && |s'.pc| == |s.pc| && |s'.free| == |s.free| && |s'.ctl| == |s.ctl|
  {
    hide Inv, Toggle, Step, NestStep, RefStep;
    if exists c: nat :: Toggle(s, s', c) {
      var c: nat :| Toggle(s, s', c);
      ToggleKeepsInv(s, s', c);
    } else if exists c: nat, p: nat :: NestStep(s, s', c, p) {
      var c: nat, p: nat :| NestStep(s, s', c, p);
      NestKeepsInv(s, s', c, p);
    } else if exists c: nat, p: nat :: RefStep(s, s', c, p) {
      var c: nat, p: nat :| RefStep(s, s', c, p);
      RefStepKeepsInv(s, s', c, p);
    } else {
      var c: nat, p: nat :| Step(s, s', c, p);
      StepKeepsInv(s, s', c, p);
    }
  }

  /** s is a state of some run. */
  ghost predicate Reachable(s: State)
    ensures Reachable(s) ==> Shape(s)
  {
    if exists t :: Execution(t) && t[|t| - 1] == s then
      var t :| Execution(t) && t[|t| - 1] == s;
      ExecutionInv(t, |t| - 1);
      true
    else false
  }

  lemma ReachableInv(s: State)
    requires Reachable(s)
    ensures Inv(s)
  {
    hide Inv, Init, Next;
    var t :| Execution(t) && t[|t| - 1] == s;
    ExecutionInv(t, |t| - 1);
  }

  // ---- what holds in every state of every run ----

  /** No spinlock is ever held on two CPUs, and noff counts what each holds. */
  lemma MutualExclusion(s: State, c: nat, d: nat, l: Lock)
    requires Reachable(s) && c < |s.ctl| && d < |s.ctl|
    requires l in HeldBy(s, c) && l in HeldBy(s, d)
    ensures c == d && l in s.locks && s.locks[l] == c && s.noff[c] == |HeldBy(s, c)|
  {
    hide HeldBy, RunOk, ForkOk, CondOk, WaitOk, WokeOk, IntrOk, RefOk;
    ReachableInv(s);
    OneHolder(s, c, d, l);
  }

  /**
   No process is ever on two CPUs, not even across the two halves of a context switch. Whenever a
   process's lock is free, it is RUNNING exactly if it is on a CPU.
   */
  lemma SingleExecution(s: State, p: nat)
    requires Reachable(s) && p < |s.st|
    ensures forall c: nat, d: nat :: c < |s.ctl| && d < |s.ctl| && OnCpu(s, c, p) && OnCpu(s, d, p) ==> c == d
    ensures ProcLock(p) !in s.locks ==> (s.st[p] == RUNNING <==> exists c: nat :: c < |s.ctl| && OnCpu(s, c, p))
  {
    hide ForkOk, CondOk, WaitOk, WokeOk, IntrOk, RefOk, HeldOk, CtlOk, RunOk, PcsOk;
    ReachableInv(s);
    forall c: nat, d: nat | c < |s.ctl| && d < |s.ctl| && OnCpu(s, c, p) && OnCpu(s, d, p) ensures c == d {
      OneCpu(s, c, d, p);
    }
    if ProcLock(p) !in s.locks { RunsIffOn(s, p); }
  }

  lemma OneCpu(s: State, c: nat, d: nat, p: nat)
    requires LocksOk(s) && RunOk(s) && c < |s.ctl| && d < |s.ctl| && p < |s.pc| && OnCpu(s, c, p) && OnCpu(s, d, p)
    ensures c == d
  {
    if ProcLock(p) in HeldBy(s, c) && ProcLock(p) in HeldBy(s, d) { OneHolder(s, c, d, ProcLock(p)); }
  }

  lemma RunsIffOn(s: State, p: nat)
    requires LocksOk(s) && RunOk(s) && p < |s.pc| && ProcLock(p) !in s.locks
    ensures s.st[p] == RUNNING <==> exists c: nat :: c < |s.ctl| && OnCpu(s, c, p)
  {
    hide HeldOk, CtlOk, PcsOk;
    if s.st[p] == RUNNING {
      var c: nat :| c < |s.ctl| && s.ctl[c] == Run(p);
      assert OnCpu(s, c, p);
    }
    forall c: nat | c < |s.ctl| && OnCpu(s, c, p) ensures s.st[p] == RUNNING { RunsUnlocked(s, c, p); }
  }

  /** A process on a CPU with its lock free is past any switch. */
  lemma RunsUnlocked(s: State, c: nat, p: nat)
    requires LocksOk(s) && RunOk(s) && p < |s.pc| && ProcLock(p) !in s.locks && c < |s.ctl| && OnCpu(s, c, p)
    ensures s.st[p] == RUNNING
  {
    hide PcsOk, CtlOk;
    assert ProcLock(p) !in HeldBy(s, c);
    hide HeldOk;
    if s.ctl[c] == Run(p) { RunningNow(s, c, p); }
  }

  /**
   sched() never panics: its process's lock is held, it is the only lock held, the state has changed
   and interrupts are off.
   */
  lemma SchedChecks(s: State, c: nat, p: nat)
    requires Reachable(s) && c < |s.ctl| && s.ctl[c] == Run(p) && p < |s.pc| && s.pc[p].Sched?
    ensures ProcLock(p) in s.locks && s.locks[ProcLock(p)] == c
    ensures s.noff[c] == 1 && s.st[p] != RUNNING && !s.intr[c]
  {
    hide ForkOk, CondOk, WaitOk, WokeOk, RefOk, HeldOk, CtlOk, PcsOk, RunOk;
    ReachableInv(s);
    OnlyLock(s, c, p);
    LeftRunning(s, c, p);
  }

  lemma OnlyLock(s: State, c: nat, p: nat)
    requires LocksOk(s) && c < |s.ctl| && s.ctl[c] == Run(p) && p < |s.pc| && Holds(s.pc[p], p) == {ProcLock(p)}
    ensures ProcLock(p) in s.locks && s.locks[ProcLock(p)] == c && s.noff[c] == 1
  {
    hide Holds, PcsOk, CtlOk;
    assert HeldBy(s, c) == {ProcLock(p)};
    assert ProcLock(p) in HeldBy(s, c);
  }

  lemma LeftRunning(s: State, c: nat, p: nat)
    requires RunOk(s) && c < |s.ctl| && s.ctl[c] == Run(p) && p < |s.pc| && s.pc[p].Sched?
    ensures s.st[p] != RUNNING
  {
  }

  /** wait() frees only processes that have left every CPU, so nothing runs on their kernel stack. */
  lemma WaitFreesOffCpu(s: State, c: nat, p: nat)
    requires Reachable(s) && c < |s.ctl| && s.ctl[c] == Run(p) && p < |s.pc|
    requires s.pc[p].WaitHold? && s.pc[p].i < |s.pc| && s.st[s.pc[p].i] == ZOMBIE
    ensures forall d: nat :: d < |s.ctl| ==> !OnCpu(s, d, s.pc[p].i)
  {
    hide ForkOk, CondOk, WaitOk, WokeOk, IntrOk, RefOk, RunOk, HeldOk, CtlOk, PcsOk;
    ReachableInv(s);
    var q := s.pc[p].i;
    RunningNow(s, c, p);
    LockedAndOff(s, c, p, q);
  }

  /** While the spinlock of an unlocked sleep lock is free, no process is asleep on it. */
  lemma NoLostWakeup(s: State, k: nat, q: nat)
    requires Reachable(s) && k < |s.free| && q < |s.st|
    requires CondLock(k) !in s.locks && s.free[k]
    ensures !(s.st[q] == SLEEPING && s.chan[q] == CondChan(k, 0))
  {
    hide ForkOk, LocksOk, WaitOk, WokeOk, IntrOk, RefOk, RunOk;
    ReachableInv(s);
    assert SleepyOn(s, q, CondChan(k, 0)) ==> WakeAt(s, CondLock(k), CondChan(k, 0)) <= q;
  }

  /** While wait_lock is free, no process asleep in wait() has a zombie child. */
  lemma NoZombieWhileWaiting(s: State, w: nat, q: nat)
    requires Reachable(s) && w < |s.st| && q < |s.st|
    requires WaitLock !in s.locks && s.st[w] == SLEEPING && s.chan[w] == ProcChan(w)
    ensures !(s.parent[q] == w && s.st[q] == ZOMBIE)
  {
    hide ForkOk, LocksOk, CondOk, WokeOk, IntrOk, RefOk, RunOk, ScanOk, ExitOk;
    ReachableInv(s);
    assert SleepyOn(s, w, ProcChan(w));
    assert ZombieChild(s, w, q) ==> WakeAt(s, WaitLock, ProcChan(INIT)) <= INIT;
  }

  // ---- wakeup reaches every sleeper ----

  /** When wakeup(ch) gets to the end of the table, no process is asleep on ch. */
  lemma WakeupWakesAll(s: State, e: nat, q: nat)
    requires Reachable(s) && e < |s.pc| && s.pc[e].Waking? && s.pc[e].i >= |s.pc| && q < |s.pc|
    ensures !(s.st[q] == SLEEPING && s.chan[q] == s.pc[e].ch)
  {
    hide ForkOk, CondOk, LocksOk, WaitOk, RunOk, IntrOk, RefOk;
    ReachableInv(s);
    assert WokenBelow(s, e);
    assert !SleepyOn(s, q, s.pc[e].ch);
  }

  /** Over any stretch of a run, a wakeup never gets past a process that stays asleep on its channel. */
  lemma {:induction false} NotPassed(t: seq<State>, i: nat, j: nat, l: Lock, ch: Chan, q: nat)
    requires Execution(t) && i <= j < |t| && q < |t[0].pc|
    requires forall m: nat :: i <= m <= j ==> Drowsy(t[m], q, ch)
    requires WakeAt(t[i], l, ch) <= q
    ensures WakeAt(t[j], l, ch) <= q
    decreases j
  {
    hide Init, Next, Inv, Drowsy, WakeAt;
    if i < j {
      NotPassed(t, i, j - 1, l, ch, q);
      ExecutionInv(t, j - 1);
      assert Next(t[j - 1], t[j - 1 + 1]);
      NextAhead(t[j - 1], t[j], q, l, ch);
    }
  }

  ghost predicate Drowsy(s: State, q: nat, ch: Chan) {
    Shape(s) && q < |s.pc| && SleepyOn(s, q, ch)
  }

  lemma NextAhead(s: State, s': State, q: nat, l: Lock, ch: Chan)
    requires Inv(s) && Next(s, s') && Drowsy(s, q, ch) && Drowsy(s', q, ch) && WakeAt(s, l, ch) <= q
    ensures WakeAt(s', l, ch) <= q
  {
    hide LocksOk, RunOk, ForkOk, CondOk, WaitOk, WokeOk, IntrOk, RefOk, Step, NestStep, RefStep, WakeAt;
    if exists c: nat :: Toggle(s, s', c) {
      var c: nat :| Toggle(s, s', c);
      FlagWakeAt(s, s', l, ch);
    } else if exists c: nat, p: nat :: NestStep(s, s', c, p) {
      var c: nat, p: nat :| NestStep(s, s', c, p);
      NestNotPassed(s, s', c, p, l, ch);
    } else if exists c: nat, p: nat :: RefStep(s, s', c, p) {
      var c: nat, p: nat :| RefStep(s, s', c, p);
      RefsKeepRefs(s, s', c, p);
      FlagWakeAt(s, s', l, ch);
    } else {
      var c: nat, p: nat :| Step(s, s', c, p);
      StepKeepsInv(s, s', c, p);
      StillAhead(s, s', c, p, q, l, ch);
    }
  }

  lemma NestNotPassed(s: State, s': State, c: nat, p: nat, l: Lock, ch: Chan)
    requires Inv(s) && NestStep(s, s', c, p) && WakeAt(s, l, ch) < |s.pc|
    ensures WakeAt(s', l, ch) == WakeAt(s, l, ch)
  {
    hide HeldOk, CtlOk, PcsOk, RunOk, ForkOk, CondOk, WaitOk, WokeOk, IntrOk, RefOk, NestFrame, WakeAt;
    hide Enter, Leave, IputTake, IputGot;
    var m, take := NestIs(s, s', c, p);
    NestKeepsLocks(s, s', c, p, m, take);
    NestAhead(s, s', c, p, l, ch);
  }

  /**
   No wakeup is lost, whatever the condition: a process asleep on ch when a wakeup(ch) starts has left
   that sleep by the time the wakeup is over.
   */
  lemma WakeupReaches(t: seq<State>, i: nat, j: nat, l: Lock, ch: Chan, q: nat)
    requires Execution(t) && i <= j < |t| && q < |t[0].pc|
    requires WakeAt(t[i], l, ch) == 0 && WakeAt(t[j], l, ch) == |t[j].pc|
    ensures exists m: nat :: i <= m <= j && !Drowsy(t[m], q, ch)
  {
    hide Init, Next, Inv, Drowsy, WakeAt;
    if forall m: nat :: i <= m <= j ==> Drowsy(t[m], q, ch) {
      NotPassed(t, i, j, l, ch, q);
      ExecutionInv(t, j);
      assert false;
    }
  }

  // ---- spinlocks never panic and never deadlock ----

  /** CPU c is about to acquire l. */
  ghost predicate Wants(s: State, c: nat, l: Lock)
    requires Shape(s) && c < |s.ctl|
  {
    match s.ctl[c]
    case Looking => l.ProcLock? && l.p < |s.pc|
    case Run(p) =>
      && p < |s.pc|
      && (|| (exists to :: Moves(s, p, Take(l, to)))
          || (s.pc[p].Idle? && l.CondLock? && l.k < |s.free|) || (s.pc[p].ForkParent? && l == WaitLock)
          || (Nests(s, p) && l.InnerLock?) || (s.pc[p] == Inner(Idle, ITABLE) && l.CondLock? && LastRef(s, p, l.k)))
    case _ => false
  }

  /** A write to shared fields or a nested step at pc ends by releasing l. */
  predicate DropsAt(pc: Pc, p: nat, l: Lock) {
    match pc
    case CondHold(k) => l == CondLock(k)
    case Resume(_) => l == ProcLock(p)
    case WakeHold(_, i, _) => l == ProcLock(i)
    case KillHold(q) => l == ProcLock(q)
    case WaitHold(i, _) => l == ProcLock(i)
    case ForkFill(q) => l == ProcLock(q)
    case ForkSet(q) => l == ProcLock(q)
    case Inner(_, j) => l == InnerLock(j)
    case IputLock(k) => l == CondLock(k)
    case _ => false
  }

  /** CPU c is about to release l. */
  ghost predicate Drops(s: State, c: nat, l: Lock)
    requires Shape(s) && c < |s.ctl|
  {
    match s.ctl[c]
    case Looking => false
    case Run(p) => p < |s.pc| && ((exists to :: Moves(s, p, Give(l, to))) || DropsAt(s.pc[p], p, l))
    case Picked(p) => l == ProcLock(p)
    case Returned(p) => l == ProcLock(p)
  }

  /**
   No spinlock panic is reachable. A CPU never acquires a lock it holds itself; it releases only locks
   it holds, with interrupts off and noff at least 1.
   */
  lemma SpinlockChecks(s: State, c: nat, l: Lock)
    requires Reachable(s) && c < |s.ctl|
    ensures Wants(s, c, l) ==> !(l in s.locks && s.locks[l] == c)
    ensures Drops(s, c, l) ==> l in s.locks && s.locks[l] == c && s.noff[c] >= 1 && !s.intr[c]
  {
    hide ForkOk, CondOk, WaitOk, WokeOk, RunOk, RefOk, LocksOk, Wants, Drops;
    ReachableInv(s);
    if Wants(s, c, l) { WantsFresh(s, c, l); }
    if Drops(s, c, l) { DropsHeld(s, c, l); }
  }

  lemma WantsFresh(s: State, c: nat, l: Lock)
    requires LocksOk(s) && c < |s.ctl| && Wants(s, c, l)
    ensures !(l in s.locks && s.locks[l] == c)
  {
    hide Moves, Holds, LastRef;
    if s.ctl[c].Run? && exists to :: Moves(s, s.ctl[c].p, Take(l, to)) {
      var p := s.ctl[c].p;
      var to :| Moves(s, p, Take(l, to));
      assert PcOk(s.pc[p], |s.pc|);
      MoveHolds(s, p, Take(l, to));
    } else if s.ctl[c].Run? && Nests(s, s.ctl[c].p) && l.InnerLock? {
      OuterFresh(s.pc[s.ctl[c].p], s.ctl[c].p, l.j);
    } else if s.ctl[c].Run? && l.CondLock? && s.pc[s.ctl[c].p] == Inner(Idle, ITABLE) {
      IputIdle(s.ctl[c].p, l.k);
    } else {
      HoldsNone(s, c);
    }
    assert l !in HeldBy(s, c);
  }

  lemma OuterFresh(pc: Pc, p: nat, j: nat)
    requires Outer(pc)
    ensures InnerLock(j) !in Holds(pc, p)
  {
  }

  lemma HoldsNone(s: State, c: nat)
    requires c < |s.ctl| && (s.ctl[c].Looking?
        || (s.ctl[c].Run? && s.ctl[c].p < |s.pc| && (s.pc[s.ctl[c].p].Idle? || s.pc[s.ctl[c].p].ForkParent?)))
    ensures HeldBy(s, c) == {}
  {
  }

  lemma DropsHeld(s: State, c: nat, l: Lock)
    requires LocksOk(s) && c < |s.ctl| && Drops(s, c, l)
    ensures l in s.locks && s.locks[l] == c && s.noff[c] >= 1
  {
    hide Moves, Holds;
    if s.ctl[c].Run? {
      var p := s.ctl[c].p;
      if DropsAt(s.pc[p], p, l) {
        DropsWhatItHolds(s.pc[p], p, l);
      } else {
        var to :| Moves(s, p, Give(l, to));
        assert PcOk(s.pc[p], |s.pc|);
        MoveHolds(s, p, Give(l, to));
      }
    }
    assert l in HeldBy(s, c);
  }

  lemma DropsWhatItHolds(pc: Pc, p: nat, l: Lock)
    requires DropsAt(pc, p, l)
    ensures l in Holds(pc, p)
  {
  }

  /** Spinlocks nest outside in: conditions and wait_lock, then processes, then the inner locks. */
  function Rank(l: Lock): nat {
    match l case CondLock(_) => 0 case WaitLock => 0 case ProcLock(_) => 1 case InnerLock(_) => 2
  }

  /**
   Whoever is about to acquire a lock holds only locks of lower rank; or it is iput, which takes the
   spinlock of an inode's sleep lock under itable.lock, and then nobody holds that.
   */
  lemma LockOrder(s: State, c: nat, l: Lock, h: Lock)
    requires Reachable(s) && c < |s.ctl| && Wants(s, c, l) && h in HeldBy(s, c)
    ensures Rank(h) < Rank(l) || l !in s.locks
  {
    hide Moves, Holds, ForkOk, CondOk, WaitOk, WokeOk, IntrOk, RunOk, LocksOk, RefOk, LastRef;
    ReachableInv(s);
    if s.ctl[c].Run? {
      var p := s.ctl[c].p;
      if exists to :: Moves(s, p, Take(l, to)) {
        var to :| Moves(s, p, Take(l, to));
        MoveOrder(s, p, l, to, h);
      } else if Nests(s, p) && l.InnerLock? {
        OuterRank(s.pc[p], p, h);
      } else if l.CondLock? && s.pc[p] == Inner(Idle, ITABLE) {
        NobodyAt(s, c, p, l.k);
      } else {
        HoldsNone(s, c);
      }
    }
  }

  lemma MoveOrder(s: State, p: nat, l: Lock, to: Pc, h: Lock)
    requires Shape(s) && p < |s.pc| && Moves(s, p, Take(l, to)) && h in Holds(s.pc[p], p)
    ensures Rank(h) < Rank(l)
  {
  }

  lemma OuterRank(pc: Pc, p: nat, h: Lock)
    requires Outer(pc) && h in Holds(pc, p)
    ensures Rank(h) < 2
  {
  }

  /** While the last reference to an inode is being put, nobody is at its sleep lock. */
  lemma NobodyAt(s: State, c: nat, p: nat, k: nat)
    requires LocksOk(s) && RefOk(s) && c < |s.ctl| && s.ctl[c] == Run(p) && p < |s.pc|
    requires s.pc[p] == Inner(Idle, ITABLE) && LastRef(s, p, k)
    ensures CondLock(k) !in s.locks
  {
    hide HeldOk, CtlOk, PcsOk, Uses, Holds;
    if CondLock(k) in s.locks {
      var q := HolderOf(s, k);
      if q == p { IputIdle(p, k); }
    }
  }

  lemma IputIdle(p: nat, k: nat)
    ensures CondLock(k) !in Holds(Inner(Idle, ITABLE), p) && !Uses(Inner(Idle, ITABLE), k)
  {
  }

  lemma HolderOf(s: State, k: nat) returns (q: nat)
    requires LocksOk(s) && CondLock(k) in s.locks
    ensures q < |s.pc| && Uses(s.pc[q], k)
  {
    hide Uses, Holds;
    var d := s.locks[CondLock(k)];
    assert CondLock(k) in HeldBy(s, d);
    q := s.ctl[d].p;
    assert PcOk(s.pc[q], |s.pc|);
    HoldsUses(s.pc[q], q, k);
  }

  lemma HoldsUses(pc: Pc, q: nat, k: nat)
    requires CondLock(k) in Holds(pc, q)
    ensures Uses(pc, k)
  {
  }

  /** iput's acquiresleep never sleeps, which with itable.lock held would be a panic in sched. */
  lemma IputNeverSleeps(s: State, p: nat)
    requires Reachable(s) && p < |s.pc| && s.pc[p].IputLock?
    ensures s.pc[p].k < |s.free| && s.free[s.pc[p].k]
  {
    hide ForkOk, CondOk, WaitOk, WokeOk, IntrOk, RunOk, LocksOk;
    ReachableInv(s);
    assert AloneAt(s, p, s.pc[p].k);
  }

  /** CPU c is about to acquire a lock that CPU d holds. */
  ghost predicate WaitsFor(s: State, c: nat, d: nat)
    requires Shape(s) && c < |s.ctl| && d < |s.ctl|
  {
    exists l :: Wants(s, c, l) && l in HeldBy(s, d)
  }

  /** CPU c is about to acquire a lock of rank r that another CPU holds. */
  ghost predicate WaitsAt(s: State, c: nat, d: nat, r: nat)
    requires Shape(s) && c < |s.ctl| && d < |s.ctl|
  {
    exists l :: Wants(s, c, l) && l in HeldBy(s, d) && Rank(l) == r
  }

  lemma WaitHasRank(s: State, c: nat, d: nat) returns (r: nat)
    requires Shape(s) && c < |s.ctl| && d < |s.ctl| && WaitsFor(s, c, d)
    ensures r <= 2 && WaitsAt(s, c, d, r)
  {
    hide Wants, HeldBy;
    var l :| Wants(s, c, l) && l in HeldBy(s, d);
    r := Rank(l);
  }

  /** Along a chain of waiting CPUs the ranks go up. */
  lemma RankGoesUp(s: State, c: nat, d: nat, e: nat, r: nat, r': nat)
    requires Reachable(s) && c < |s.ctl| && d < |s.ctl| && e < |s.ctl| && WaitsAt(s, c, d, r) && WaitsAt(s, d, e, r')
    ensures r < r'
  {
    hide Wants, HeldBy, Reachable;
    var x :| Wants(s, c, x) && x in HeldBy(s, d) && Rank(x) == r;
    var y :| Wants(s, d, y) && y in HeldBy(s, e) && Rank(y) == r';
    HeldIsLocked(s, e, y);
    LockOrder(s, d, y, x);
  }

  lemma HeldIsLocked(s: State, e: nat, y: Lock)
    requires Reachable(s) && e < |s.ctl| && y in HeldBy(s, e)
    ensures y in s.locks
  {
    hide HeldBy, RunOk, ForkOk, CondOk, WaitOk, WokeOk, IntrOk, RefOk;
    ReachableInv(s);
  }

  /** Chains of waiting CPUs have at most three links. */
  lemma ShortWaits(s: State, c: nat, d: nat, e: nat, f: nat, g: nat)
    requires Reachable(s) && c < |s.ctl| && d < |s.ctl| && e < |s.ctl| && f < |s.ctl| && g < |s.ctl|
    requires WaitsFor(s, c, d) && WaitsFor(s, d, e) && WaitsFor(s, e, f)
    ensures !WaitsFor(s, f, g)
  {
    hide Reachable, WaitsFor, WaitsAt;
    if WaitsFor(s, f, g) {
      var r0 := WaitHasRank(s, c, d);
      var r1 := WaitHasRank(s, d, e);
      var r2 := WaitHasRank(s, e, f);
      var r3 := WaitHasRank(s, f, g);
      RankGoesUp(s, c, d, e, r0, r1);
      RankGoesUp(s, d, e, f, r1, r2);
      RankGoesUp(s, e, f, g, r2, r3);
    }
  }

  /** CPU c waits for nobody in the group. */
  ghost predicate Free(s: State, group: set<nat>, c: nat)
    requires Shape(s) && c < |s.ctl| && forall d :: d in group ==> d < |s.ctl|
  {
    forall d :: d in group ==> !WaitsFor(s, c, d)
  }

  /** No set of CPUs is deadlocked: one of them waits for none of the others. */
  lemma NoDeadlock(s: State, group: set<nat>)
    requires Reachable(s) && group != {} && forall c :: c in group ==> c < |s.ctl|
    ensures exists c :: c in group && Free(s, group, c)
  {
    hide Reachable, WaitsFor;
    var c :| c in group;
    if !Free(s, group, c) {
      var d :| d in group && WaitsFor(s, c, d);
      SomeFree(s, group, c, d);
    }
  }

  lemma SomeFree(s: State, group: set<nat>, c: nat, d: nat)
    requires Reachable(s) && c in group && d in group && (forall c :: c in group ==> c < |s.ctl|) && WaitsFor(s, c, d)
    ensures exists e :: e in group && Free(s, group, e)
  {
    hide Reachable, WaitsFor;
    if !Free(s, group, d) {
      var e :| e in group && WaitsFor(s, d, e);
      if !Free(s, group, e) {
        var f :| f in group && WaitsFor(s, e, f);
        forall x | x in group ensures !WaitsFor(s, f, x) { ShortWaits(s, c, d, e, f, x); }
        assert Free(s, group, f);
      }
    }
  }

  // ---- a process gets its interrupt state back ----

  /** What a step of CPU d does to intena on CPU c, while locks are held there or with the first one taken. */
  ghost predicate IntenaKept(s: State, t: State, c: nat)
    requires HasCpu(s, c) && HasCpu(t, c)
  {
    && (s.noff[c] > 0 && t.noff[c] > 0 ==> t.intena[c] == s.intena[c])
    && (s.noff[c] == 0 && t.noff[c] > 0 ==> t.intena[c] == s.intr[c])
  }

  lemma WriteIntena(s: State, s': State, d: nat, p: nat, c: nat)
    requires Shape(s) && WriteStep(s, s', d, p) && !s.pc[p].Resume? && c < |s.ctl|
    ensures HasCpu(s', c) && IntenaKept(s, s', c)
  {
    match s.pc[p]
    case Idle => var k: nat :| Unlocks(s, s', d, p, k);
    case _ =>
  }

  /** The process that comes back sets intena, and lets go of its only lock. */
  lemma ResumeIntena(s: State, s': State, d: nat, p: nat, c: nat)
    requires LocksOk(s) && WriteStep(s, s', d, p) && s.pc[p].Resume? && c < |s.ctl|
    ensures HasCpu(s', c) && IntenaKept(s, s', c)
  {
    hide HeldOk, CtlOk, PcsOk;
    OnlyLock(s, d, p);
  }

  lemma StepIntena(s: State, s': State, d: nat, p: nat, c: nat)
    requires LocksOk(s) && Step(s, s', d, p) && c < |s.ctl|
    ensures HasCpu(s', c) && IntenaKept(s, s', c)
  {
    hide HeldOk, CtlOk, PcsOk, Moves, Writes;
    if WriteStep(s, s', d, p) {
      if s.pc[p].Resume? { ResumeIntena(s, s', d, p, c); } else { WriteIntena(s, s', d, p, c); }
    }
  }

  lemma NestIntena(s: State, s': State, d: nat, p: nat, c: nat)
    requires Shape(s) && NestStep(s, s', d, p) && c < |s.ctl|
    ensures HasCpu(s', c) && IntenaKept(s, s', c)
  {
    hide LastRef, Nests;
    if j: nat :| Enter(s, s', d, p, j) {
    } else if k: nat :| IputTake(s, s', d, p, k) {
    }
  }

  lemma NextIntena(s: State, s': State, c: nat)
    requires LocksOk(s) && Next(s, s') && c < |s.ctl|
    ensures HasCpu(s', c) && IntenaKept(s, s', c)
  {
    hide HeldOk, CtlOk, PcsOk, Step, NestStep;
    if exists d: nat :: Toggle(s, s', d) {
    } else if exists d: nat, p: nat :: NestStep(s, s', d, p) {
      var d: nat, p: nat :| NestStep(s, s', d, p);
      NestIntena(s, s', d, p, c);
    } else if exists d: nat, p: nat :: RefStep(s, s', d, p) {
    } else {
      var d: nat, p: nat :| Step(s, s', d, p);
      StepIntena(s, s', d, p, c);
    }
  }

  /** CPU c held no lock at time a, and has held some ever since, up to time i. */
  ghost predicate BusySince(t: seq<State>, a: nat, i: nat, c: nat) {
    && a < i < |t| && (forall m: nat :: a <= m <= i ==> HasCpu(t[m], c))
    && t[a].noff[c] == 0 && forall m: nat :: a < m <= i ==> t[m].noff[c] > 0
  }

  /** intena is what the interrupt flag was before the first acquire. */
  lemma {:induction false} IntenaIsBefore(t: seq<State>, a: nat, i: nat, c: nat)
    requires Execution(t) && BusySince(t, a, i, c)
    ensures t[i].intena[c] == t[a].intr[c]
    decreases i
  {
    hide Init, Next, LocksOk, RunOk, ForkOk, CondOk, WaitOk, WokeOk, IntrOk, RefOk;
    ExecutionInv(t, i - 1);
    assert Next(t[i - 1], t[i - 1 + 1]);
    NextIntena(t[i - 1], t[i], c);
    if a < i - 1 { IntenaIsBefore(t, a, i - 1, c); }
  }

  /** Since boot, when it held none, a CPU that holds a lock has gone from none to one some last time. */
  lemma {:induction false} BusySinceSome(t: seq<State>, i: nat, c: nat) returns (a: nat)
    requires Execution(t) && i < |t| && c < |t[0].ctl| && HasCpu(t[i], c) && t[i].noff[c] > 0
    ensures BusySince(t, a, i, c)
    decreases i
  {
    hide Next, Inv;
    if i == 0 {
      assert false;
    } else {
      ExecutionInv(t, i - 1);
      assert Next(t[i - 1], t[i - 1 + 1]);
      CountsUp(t[i - 1], t[i], c);
      if t[i - 1].noff[c] > 0 { a := BusySinceSome(t, i - 1, c); } else { a := i - 1; }
    }
  }

  lemma CountsUp(s: State, s': State, c: nat)
    requires Inv(s) && Next(s, s') && c < |s.ctl|
    ensures HasCpu(s, c) && s.noff[c] >= 0
  {
    hide RunOk, ForkOk, CondOk, WaitOk, WokeOk, IntrOk, RefOk, HeldBy;
  }

  /** Nobody touches what sched() saved for a process that is switched out. */
  lemma SavedStays(s: State, s': State, p: nat)
    requires Shape(s) && Next(s, s') && p < |s.pc| && s.pc[p].Resume?
    ensures p < |s'.saved| && s'.saved[p] == s.saved[p]
  {
    hide Step;
    if exists c: nat :: Toggle(s, s', c) {
    } else if exists c: nat, q: nat :: NestStep(s, s', c, q) {
      var c: nat, q: nat :| NestStep(s, s', c, q);
      NestSaves(s, s', c, q);
    } else if exists c: nat, q: nat :: RefStep(s, s', c, q) {
    } else {
      var c: nat, q: nat :| Step(s, s', c, q);
      StepSaves(s, s', c, q, p);
    }
  }

  lemma NestSaves(s: State, s': State, c: nat, q: nat)
    requires Shape(s) && NestStep(s, s', c, q)
    ensures s'.saved == s.saved
  {
    hide LastRef, Nests;
    if j: nat :| Enter(s, s', c, q, j) {
    } else if k: nat :| IputTake(s, s', c, q, k) {
    }
  }

  lemma StepSaves(s: State, s': State, c: nat, q: nat, p: nat)
    requires Shape(s) && Step(s, s', c, q) && p < |s.pc| && s.pc[p].Resume?
    ensures p < |s'.saved| && s'.saved[p] == s.saved[p]
  {
    hide Moves;
    if WriteStep(s, s', c, q) {
      match s.pc[q]
      case Idle => var k: nat :| Unlocks(s, s', c, q, k);
      case _ =>
    }
  }

  lemma InvShaped(s: State)
    requires Inv(s)
    ensures Shape(s)
  {
  }

  lemma {:induction false} SavedKept(t: seq<State>, i: nat, j: nat, p: nat)
    requires Execution(t) && i <= j < |t| && p < |t[0].pc|
    requires forall m: nat :: i <= m <= j ==> p < |t[m].pc| && t[m].pc[p].Resume?
    ensures p < |t[i].saved| && p < |t[j].saved| && t[j].saved[p] == t[i].saved[p]
    decreases j
  {
    hide Init, Next, Inv;
    ExecutionInv(t, j);
    InvShaped(t[j]);
    if i < j {
      SavedKept(t, i, j - 1, p);
      ExecutionInv(t, j - 1);
      InvShaped(t[j - 1]);
      assert Next(t[j - 1], t[j - 1 + 1]);
      SavedStays(t[j - 1], t[j], p);
    }
  }

  /**
   Across a context switch, on whatever CPU the process comes back, interrupts end up as they were
   on the first CPU just before it took the first of the locks it held on its way out.
   */
  lemma InterruptsRestored(t: seq<State>, i: nat, j: nat, c: nat, d: nat, p: nat) returns (a: nat)
    requires Execution(t) && i < j < |t| - 1 && p < |t[0].pc|
    requires SwitchOut(t[i], t[i + 1], c, p)
    requires forall m: nat :: i < m <= j ==> p < |t[m].pc| && t[m].pc[p].Resume?
    requires Shape(t[j]) && WriteStep(t[j], t[j + 1], d, p) && !t[j].pc[p].next.Forkret?
    ensures BusySince(t, a, i, c) && HasCpu(t[j + 1], d) && t[j + 1].intr[d] == t[a].intr[c]
  {
    hide Init, Next, WriteStep, LocksOk, RunOk, ForkOk, CondOk, WaitOk, WokeOk, IntrOk, RefOk, BusySince;
    SavedKept(t, i + 1, j, p);
    ExecutionInv(t, j);
    ResumesWith(t[j], t[j + 1], d, p);
    ExecutionInv(t, i);
    HoldsOnWayOut(t[i], c, p);
    a := BusySinceSome(t, i, c);
    IntenaAt(t, a, i, c);
  }

  lemma HoldsOnWayOut(s: State, c: nat, p: nat)
    requires LocksOk(s) && HasCpu(s, c) && s.ctl[c] == Run(p) && p < |s.pc| && s.pc[p].Sched?
    ensures s.noff[c] > 0
  {
    hide HeldOk, CtlOk, PcsOk;
    OnlyLock(s, c, p);
  }

  lemma IntenaAt(t: seq<State>, a: nat, i: nat, c: nat)
    requires Execution(t) && BusySince(t, a, i, c)
    ensures a < i < |t| && HasCpu(t[a], c) && HasCpu(t[i], c) && t[i].intena[c] == t[a].intr[c]
  {
    hide Init, Next;
    IntenaIsBefore(t, a, i, c);
  }

  lemma ResumesWith(s: State, s': State, d: nat, p: nat)
    requires LocksOk(s) && IntrOk(s) && WriteStep(s, s', d, p) && s.pc[p].Resume? && !s.pc[p].next.Forkret?
    ensures HasCpu(s', d) && s'.intr[d] == s.saved[p]
  {
    hide HeldOk, CtlOk, PcsOk;
    OnlyLock(s, d, p);
  }
}
