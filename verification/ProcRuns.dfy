/**
 What whole runs of kernel/proc.c and kernel/sleeplock.c show: who has which sleep lock, told only from
 the calls that have returned, and who is creating which process.
 */
module ProcRuns {
  import opened Proc

  // ---- sleep locks ----

  /** The step from pc to pc' is the return of acquiresleep(k), the one in iput included. */
  predicate Given(pc: Pc, pc': Pc, k: nat) {
    (pc == CondHold(k) && pc' == Idle) || (pc == IputLock(k) && pc' == Inner(Idle, ITABLE))
  }

  /** The step from pc to pc' is releasesleep(k), up to its wakeup. */
  predicate GivenUp(pc: Pc, pc': Pc, k: nat) {
    pc == Idle && pc' == Waking(CondChan(k, 0), 0, ReleaseCond(k))
  }

  /** After i steps p has been given sleep lock k by acquiresleep and has not released it since. */
  ghost predicate Has(t: seq<State>, i: nat, p: nat, k: nat)
    requires i < |t|
  {
    if i == 0 || p >= |t[i - 1].pc| || p >= |t[i].pc| then false
    else if Given(t[i - 1].pc[p], t[i].pc[p], k) then true
    else if GivenUp(t[i - 1].pc[p], t[i].pc[p], k) then false
    else Has(t, i - 1, p, k)
  }

  /** What lk->locked and lk->pid say. */
  predicate Marked(s: State, p: nat, k: nat) {
    k < |s.free| && k < |s.lockedBy| && !s.free[k] && s.lockedBy[k] == p
  }

  /** A step marks a sleep lock as p's exactly when it gives it to p, and then it was free. */
  ghost predicate MarksRight(s: State, s': State, p: nat, k: nat)
    requires p < |s.pc| == |s'.pc| && k < |s.free| == |s'.free|
  {
    && (Given(s.pc[p], s'.pc[p], k) ==> s.free[k] && Marked(s', p, k))
    && (GivenUp(s.pc[p], s'.pc[p], k) ==> Marked(s, p, k) && s'.free[k])
    && (!Given(s.pc[p], s'.pc[p], k) && !GivenUp(s.pc[p], s'.pc[p], k) ==> (Marked(s', p, k) <==> Marked(s, p, k)))
  }

  lemma MoveGives(s: State, p: nat, m: Move, k: nat)
    requires Shape(s) && p < |s.pc| && Moves(s, p, m) && k < |s.free|
    ensures !Given(s.pc[p], m.to, k) && !GivenUp(s.pc[p], m.to, k)
  {
  }

  lemma MoveMarks(s: State, s': State, c: nat, q: nat, p: nat, k: nat)
    requires Shape(s) && MoveStep(s, s', c, q) && p < |s.pc| == |s'.pc| && k < |s.free| == |s'.free|
    ensures MarksRight(s, s', p, k)
  {
    hide Moves;
    var m :| Moves(s, q, m) && Made(s, s', c, q, m);
    if p == q { MoveGives(s, p, m, k); }
  }

  lemma WriteMarks(s: State, s': State, c: nat, q: nat, p: nat, k: nat)
    requires LocksOk(s) && WriteStep(s, s', c, q) && p < |s.pc| == |s'.pc| && k < |s.free| == |s'.free|
    ensures MarksRight(s, s', p, k)
  {
    hide MarksRight, Writes, HeldOk, CtlOk, PcsOk;
    if s.pc[q].Idle? {
      UnlockMarks(s, s', c, q, p, k);
    } else if s.pc[q].CondHold? {
      LockMarks(s, s', c, q, p, k);
    } else {
      WriteLeavesMarks(s, s', c, q);
      WriteGoes(s, s', c, q);
      WriteIsNoIput(s, s', c, q);
      UnmarkedStep(s, s', p, q, k);
    }
  }

  lemma UnlockMarks(s: State, s': State, c: nat, q: nat, p: nat, k: nat)
    requires Shape(s) && WriteStep(s, s', c, q) && s.pc[q].Idle?
    requires p < |s.pc| == |s'.pc| && k < |s.free| == |s'.free|
    ensures MarksRight(s, s', p, k)
  {
    var j: nat :| Unlocks(s, s', c, q, j);
  }

  lemma LockMarks(s: State, s': State, c: nat, q: nat, p: nat, k: nat)
    requires Shape(s) && WriteStep(s, s', c, q) && s.pc[q].CondHold?
    requires p < |s.pc| == |s'.pc| && k < |s.free| == |s'.free|
    ensures MarksRight(s, s', p, k)
  {
  }

  lemma WriteLeavesMarks(s: State, s': State, c: nat, q: nat)
    requires Shape(s) && WriteStep(s, s', c, q) && !s.pc[q].Idle? && !s.pc[q].CondHold?
    ensures s'.free == s.free && s'.lockedBy == s.lockedBy
  {
  }

  lemma WriteIsNoIput(s: State, s': State, c: nat, q: nat)
    requires Shape(s) && WriteStep(s, s', c, q)
    ensures !s.pc[q].IputLock?
  {
  }

  lemma UnmarkedStep(s: State, s': State, p: nat, q: nat, k: nat)
    requires p < |s.pc| == |s'.pc| && k < |s.free| == |s'.free| && s'.free == s.free && s'.lockedBy == s.lockedBy
    requires if p == q then !s.pc[p].Idle? && !s.pc[p].CondHold? && !s.pc[p].IputLock?
             else s'.pc[p] == s.pc[p] || s'.pc[p] == Resume(Forkret)
    ensures MarksRight(s, s', p, k)
  {
  }

  lemma NestMarks(s: State, s': State, c: nat, q: nat, p: nat, k: nat)
    requires Shape(s) && NestStep(s, s', c, q) && p < |s.pc| == |s'.pc| && k < |s.free| == |s'.free|
    ensures MarksRight(s, s', p, k)
  {
  }

  lemma NextMarks(s: State, s': State, p: nat, k: nat)
    requires LocksOk(s) && Next(s, s') && p < |s.pc| == |s'.pc| && k < |s.free| == |s'.free|
    ensures MarksRight(s, s', p, k)
  {
    hide HeldOk, CtlOk, PcsOk, MoveStep, WriteStep, NestStep, MarksRight;
    if exists c: nat :: Toggle(s, s', c) {
      SameMarks(s, s', p, k);
    } else if exists c: nat, q: nat :: NestStep(s, s', c, q) {
      var c: nat, q: nat :| NestStep(s, s', c, q);
      NestMarks(s, s', c, q, p, k);
    } else if exists c: nat, q: nat :: RefStep(s, s', c, q) {
      SameMarks(s, s', p, k);
    } else {
      var c: nat, q: nat :| Step(s, s', c, q);
      if MoveStep(s, s', c, q) {
        MoveMarks(s, s', c, q, p, k);
      } else if WriteStep(s, s', c, q) {
        WriteMarks(s, s', c, q, p, k);
      } else {
        SameMarks(s, s', p, k);
      }
    }
  }

  lemma SameMarks(s: State, s': State, p: nat, k: nat)
    requires p < |s.pc| == |s'.pc| && k < |s.free| == |s'.free| && s'.free == s.free && s'.lockedBy == s.lockedBy
    requires s'.pc[p] == s.pc[p] || (s.pc[p].Sched? && s'.pc[p].Resume?)
    ensures MarksRight(s, s', p, k)
  {
  }

  /** The fields of the sleep lock are right: they name p exactly if p has the lock. */
  lemma {:induction false} HasIfMarked(t: seq<State>, i: nat, p: nat, k: nat)
    requires Execution(t) && i < |t| && p < |t[0].pc| && k < |t[0].free|
    ensures Has(t, i, p, k) <==> Marked(t[i], p, k)
    decreases i
  {
    hide Next, MarksRight, LocksOk, RunOk, ForkOk, CondOk, WaitOk, WokeOk, IntrOk, RefOk;
    ExecutionInv(t, i);
    if i > 0 {
      ExecutionInv(t, i - 1);
      assert Next(t[i - 1], t[i - 1 + 1]);
      NextMarks(t[i - 1], t[i], p, k);
      HasIfMarked(t, i - 1, p, k);
      MarksStep(t, i, p, k);
    }
  }

  lemma MarksStep(t: seq<State>, i: nat, p: nat, k: nat)
    requires 0 < i < |t| && p < |t[i - 1].pc| == |t[i].pc| && k < |t[i - 1].free| == |t[i].free|
    requires MarksRight(t[i - 1], t[i], p, k) && (Has(t, i - 1, p, k) <==> Marked(t[i - 1], p, k))
    ensures Has(t, i, p, k) <==> Marked(t[i], p, k)
  {
  }

  /**
   Mutual exclusion of sleep locks, in every state of every run: nobody else has a lock that p has, its
   fields say that p does, and it is marked free exactly if nobody has it.
   */
  lemma SleepLockExclusion(t: seq<State>, i: nat, p: nat, k: nat)
    requires Execution(t) && i < |t| && p < |t[0].pc| && k < |t[0].free|
    ensures |t[i].pc| == |t[0].pc| && |t[i].free| == |t[i].lockedBy| == |t[0].free|
    ensures Has(t, i, p, k) ==> forall q: nat :: q < |t[0].pc| && q != p ==> !Has(t, i, q, k)
    ensures Has(t, i, p, k) ==> !t[i].free[k] && t[i].lockedBy[k] == p
    ensures t[i].free[k] <==> forall q: nat :: q < |t[0].pc| ==> !Has(t, i, q, k)
  {
    hide Next, Init, Has, LocksOk, RunOk, ForkOk, CondOk, WaitOk, WokeOk, IntrOk, RefOk;
    ExecutionInv(t, i);
    forall q: nat | q < |t[0].pc| ensures Has(t, i, q, k) <==> Marked(t[i], q, k) { HasIfMarked(t, i, q, k); }
    assert Has(t, i, p, k) ==> forall q: nat :: q < |t[0].pc| && q != p ==> !Marked(t[i], q, k);
    LockerInTable(t[i], k);
    if t[i].free[k] {
      forall q: nat | q < |t[0].pc| ensures !Has(t, i, q, k) { assert !Marked(t[i], q, k); }
    } else {
      var q := t[i].lockedBy[k];
      assert q < |t[0].pc| && Marked(t[i], q, k);
      assert Has(t, i, q, k);
    }
  }

  lemma LockerInTable(s: State, k: nat)
    requires Inv(s) && k < |s.free|
    ensures |s.free| == |s.lockedBy| && (!s.free[k] ==> s.lockedBy[k] < |s.pc|)
  {
    hide LocksOk, RunOk, ForkOk, CondOk, WaitOk, WokeOk, IntrOk;
  }

  /** acquiresleep returns only when nobody has the lock; otherwise the caller is still in it. */
  lemma AcquireSleepWaits(t: seq<State>, i: nat, p: nat, q: nat, k: nat)
    requires Execution(t) && i + 1 < |t| && p < |t[0].pc| && q < |t[0].pc| && k < |t[0].free|
    ensures |t[i].pc| == |t[i + 1].pc| == |t[0].pc|
    ensures Given(t[i].pc[p], t[i + 1].pc[p], k) ==> !Has(t, i, q, k)
  {
    hide Next, Init, Has, LocksOk, RunOk, ForkOk, CondOk, WaitOk, WokeOk, IntrOk, RefOk;
    ExecutionInv(t, i);
    ExecutionInv(t, i + 1);
    NextMarks(t[i], t[i + 1], p, k);
    SleepLockExclusion(t, i, q, k);
  }

  // ---- the children of fork ----

  /** Neither running nor to be run. */
  predicate Unborn(x: PState) { x == UNUSED || x == USED || x == ZOMBIE }

  /** Every USED process is being filled in by a fork, and no such process is itself in fork. */
  ghost predicate BirthOk(s: State) {
    && Shape(s)
    && (forall q: nat :: q < |s.st| && s.st[q] == USED ==> exists p: nat :: p < |s.pc| && Target(s.pc[p]) == q)
    && (forall q: nat :: q < |s.st| && Unborn(s.st[q]) ==> Target(s.pc[q]) == -1)
  }

  /** What a step of p, or of a scheduler about p, does to forks. */
  ghost predicate Births(s: State, s': State, p: nat)
    requires Shape(s) && Shape(s') && |s'.pc| == |s.pc| && p < |s.pc|
  {
    && (forall r: nat :: r < |s.pc| && r != p ==>
          Target(s'.pc[r]) == Target(s.pc[r]) || (s.st[r] == USED && Target(s'.pc[r]) == -1))
    && (forall q: nat :: q < |s.st| && s'.st[q] == USED ==> s.st[q] == USED || Target(s'.pc[p]) == q)
    && (forall r: nat :: r < |s.st| && Unborn(s'.st[r]) ==> Unborn(s.st[r]) || (r == p && Target(s'.pc[p]) == -1))
    && (|| Target(s'.pc[p]) == Target(s.pc[p])
        || (s.st[p] == s'.st[p] == RUNNING && (0 <= Target(s.pc[p]) < |s.st| ==> s'.st[Target(s.pc[p])] != USED)))
  }

  lemma BirthsKeep(s: State, s': State, p: nat)
    requires BirthOk(s) && Shape(s') && |s'.pc| == |s.pc| && p < |s.pc| && Births(s, s', p)
    ensures BirthOk(s')
  {
    forall q: nat | q < |s'.st| && s'.st[q] == USED ensures exists r: nat :: r < |s'.pc| && Target(s'.pc[r]) == q {
      if Target(s'.pc[p]) != q {
        var r: nat :| r < |s.pc| && Target(s.pc[r]) == q;
        assert Target(s'.pc[r]) == q;
      }
    }
  }

  lemma MoveBirths(s: State, s': State, c: nat, p: nat)
    requires Shape(s) && MoveStep(s, s', c, p) && Shape(s') && |s'.pc| == |s.pc|
    ensures Births(s, s', p)
  {
    hide Moves, Target;
    var m :| Moves(s, p, m) && Made(s, s', c, p, m);
    MoveTarget(s, p, m);
  }

  lemma WriteBirths(s: State, s': State, c: nat, p: nat)
    requires Shape(s) && WriteStep(s, s', c, p) && Shape(s') && |s'.pc| == |s.pc| && s.st[p] == RUNNING && ForkOk(s)
    ensures Births(s, s', p)
  {
    hide Writes, ForkOk;
    if SelfWriter(s.pc[p]) {
      WriteSelfFrame(s, s', c, p);
      WriteSelfTarget(s, s', c, p);
      WriteSelfUnborn(s, s', c, p);
    } else if s.pc[p].ForkSet? {
      ForkTarget(s, p);
      SetBirths(s, s', c, p);
    } else {
      if s.pc[p].ForkFill? { ForkTarget(s, p); }
      OtherBirths(s, s', c, p);
    }
  }

  lemma WriteSelfUnborn(s: State, s': State, c: nat, p: nat)
    requires Shape(s) && WriteStep(s, s', c, p) && Shape(s') && |s'.pc| == |s.pc| && s.st[p] == RUNNING
    requires SelfWriter(s.pc[p])
    ensures s'.st[p] != USED && (Unborn(s'.st[p]) ==> Target(s'.pc[p]) == -1)
  {
    if s.pc[p].Idle? { var k: nat :| Unlocks(s, s', c, p, k); }
  }

  lemma SetBirths(s: State, s': State, c: nat, p: nat)
    requires Shape(s) && WriteStep(s, s', c, p) && Shape(s') && |s'.pc| == |s.pc| && s.st[p] == RUNNING
    requires s.pc[p].ForkSet? && s.pc[p].q < |s.st| && s.st[s.pc[p].q] == USED
    ensures Births(s, s', p)
  {
  }

  predicate NewChild(s: State, p: nat)
    requires Shape(s) && p < |s.pc| && s.pc[p].ForkFill?
  {
    var q := s.pc[p].q;
    q < |s.st| && q != p && s.st[q] == USED
  }

  lemma OtherBirths(s: State, s': State, c: nat, p: nat)
    requires Shape(s) && WriteStep(s, s', c, p) && Shape(s') && |s'.pc| == |s.pc| && s.st[p] == RUNNING
    requires !SelfWriter(s.pc[p]) && !s.pc[p].ForkSet? && (s.pc[p].ForkFill? ==> NewChild(s, p))
    ensures Births(s, s', p)
  {
    hide Writes, Births;
    OtherMoves(s, s', c, p);
    var i := OtherStates(s, s', c, p);
    OneState(s, s', p, i);
  }

  lemma OtherMoves(s: State, s': State, c: nat, p: nat)
    requires Shape(s) && WriteStep(s, s', c, p)
    requires !SelfWriter(s.pc[p]) && !s.pc[p].ForkSet?
    ensures s'.pc == s.pc[p := s'.pc[p]]
    ensures Target(s'.pc[p]) == Target(s.pc[p]) || s.pc[p].ForkLook? || s.pc[p].ForkFill?
    ensures s.pc[p].ForkLook? ==> s'.pc[p] == ForkFill(s.pc[p].q)
  {
  }

  /** One process at most changes its state: it is woken, freed, or taken for a new process. */
  lemma OtherStates(s: State, s': State, c: nat, p: nat) returns (i: nat)
    requires Shape(s) && WriteStep(s, s', c, p) && s.st[p] == RUNNING
    requires !SelfWriter(s.pc[p]) && !s.pc[p].ForkSet?
    ensures i < |s.st| == |s'.st| && s'.st == s.st[i := s'.st[i]]
    ensures match s.pc[p]
            case ForkLook(q) => i == q && s.st[i] == UNUSED && s'.st[i] == USED
            case ForkFill(q) => i == q && s'.st[i] == UNUSED
            case _ => s'.st[i] == s.st[i] || (s.st[i] == SLEEPING && s'.st[i] == RUNNABLE)
                      || (s.st[i] == ZOMBIE && s'.st[i] == UNUSED)
  {
    match s.pc[p]
    case WakeHold(_, j, _) => i := j;
    case KillHold(j) => i := j;
    case WaitHold(j, _) => i := j;
    case ForkLook(j) => i := j;
    case ForkFill(j) => i := j;
  }

  lemma OneState(s: State, s': State, p: nat, i: nat)
    requires Shape(s) && Shape(s') && p < |s.pc| == |s'.pc| && s'.pc == s.pc[p := s'.pc[p]] && s.st[p] == RUNNING
    requires i < |s.st| == |s'.st| && s'.st == s.st[i := s'.st[i]]
    requires match s.pc[p]
             case ForkLook(q) => i == q && s.st[i] == UNUSED && s'.st[i] == USED && s'.pc[p] == ForkFill(q)
             case ForkFill(q) => i == q && i != p && s.st[i] == USED && s'.st[i] == UNUSED
             case _ => && Target(s'.pc[p]) == Target(s.pc[p])
                       && (|| s'.st[i] == s.st[i] || (s.st[i] == SLEEPING && s'.st[i] == RUNNABLE)
                           || (s.st[i] == ZOMBIE && s'.st[i] == UNUSED))
    ensures Births(s, s', p)
  {
  }

  lemma SchedulerBirths(s: State, s': State, c: nat, p: nat)
    requires Shape(s) && SchedulerStep(s, s', c, p) && Shape(s') && |s'.pc| == |s.pc| && p < |s.pc|
    ensures Births(s, s', p)
  {
  }

  lemma NestBirths(s: State, s': State, c: nat, p: nat)
    requires LocksOk(s) && NestStep(s, s', c, p)
    ensures Shape(s') && p < |s.pc| == |s'.pc| && Births(s, s', p)
  {
    hide Births, NestStep, HeldOk, CtlOk, PcsOk, Target;
    var l, take := NestIs(s, s', c, p);
    SameTarget(s, s', p);
  }

  lemma SameTarget(s: State, s': State, p: nat)
    requires Shape(s) && Shape(s') && |s'.pc| == |s.pc| && p < |s.pc| && s'.st == s.st
    requires s'.pc == s.pc[p := s'.pc[p]] && Target(s'.pc[p]) == Target(s.pc[p])
    ensures Births(s, s', p)
  {
    hide Target;
  }

  lemma QuietBirths(s: State, s': State, p: nat)
    requires Shape(s) && Shape(s') && s'.pc == s.pc && s'.st == s.st && p < |s.pc|
    ensures Births(s, s', p)
  {
  }

  lemma NextBirths(s: State, s': State) returns (p: nat)
    requires Inv(s) && Next(s, s') && Shape(s') && |s'.pc| == |s.pc|
    ensures p < |s.pc| && Births(s, s', p)
  {
    hide ForkOk, CondOk, WaitOk, WokeOk, IntrOk, RefOk, RunOk, HeldOk, CtlOk, PcsOk;
    hide MoveStep, WriteStep, NestStep, SchedulerStep, Births, Toggle, RefStep;
    if exists c: nat :: Toggle(s, s', c) {
      ToggleQuiet(s, s');
      p := INIT;
      QuietBirths(s, s', p);
    } else if exists c: nat, p: nat :: NestStep(s, s', c, p) {
      var c: nat, q: nat :| NestStep(s, s', c, q);
      p := q;
      NestBirths(s, s', c, p);
    } else if exists c: nat, p: nat :: RefStep(s, s', c, p) {
      RefQuiet(s, s');
      p := INIT;
      QuietBirths(s, s', p);
    } else {
      var c: nat, q: nat :| Step(s, s', c, q);
      p := q;
      StepBirths(s, s', c, p);
    }
  }

  lemma ToggleQuiet(s: State, s': State)
    requires exists c: nat :: Toggle(s, s', c)
    ensures s'.pc == s.pc && s'.st == s.st && s'.parent == s.parent && s'.killed == s.killed && s'.chan == s.chan
  {
  }

  lemma RefQuiet(s: State, s': State)
    requires Shape(s) && exists c: nat, p: nat :: RefStep(s, s', c, p)
    ensures s'.pc == s.pc && s'.st == s.st && s'.parent == s.parent && s'.killed == s.killed && s'.chan == s.chan
  {
  }

  lemma StepBirths(s: State, s': State, c: nat, p: nat)
    requires LocksOk(s) && RunOk(s) && ForkOk(s) && Step(s, s', c, p) && Shape(s') && |s'.pc| == |s.pc|
    ensures p < |s.pc| && Births(s, s', p)
  {
    hide ForkOk, RunOk, HeldOk, CtlOk, PcsOk, Moves, Writes, Births;
    if MoveStep(s, s', c, p) {
      MoveBirths(s, s', c, p);
    } else if WriteStep(s, s', c, p) {
      RunningIfWrites(s, s', c, p);
      WriteBirths(s, s', c, p);
    } else {
      PickedInTable(s, c, p);
      SchedulerBirths(s, s', c, p);
    }
  }

  lemma {:induction false} RunBirths(t: seq<State>, i: nat)
    requires Execution(t) && i < |t|
    ensures BirthOk(t[i])
    decreases i
  {
    hide Next, Inv, BirthOk, Births;
    ExecutionInv(t, i);
    if i == 0 {
      InitBirths(t[0]);
    } else {
      ExecutionInv(t, i - 1);
      RunBirths(t, i - 1);
      assert Next(t[i - 1], t[i - 1 + 1]);
      InvShape(t[i]);
      InvShape(t[i - 1]);
      var p := NextBirths(t[i - 1], t[i]);
      BirthsKeep(t[i - 1], t[i], p);
    }
  }

  lemma InvShape(s: State)
    requires Inv(s)
    ensures Shape(s)
  {
  }

  lemma InitBirths(s: State)
    requires Init(s)
    ensures BirthOk(s)
  {
  }

  /** In every state of every run, a process is USED exactly while a fork, and one only, is filling it in. */
  lemma UsedWhileForked(s: State, q: nat)
    requires Reachable(s) && q < |s.st|
    ensures s.st[q] == USED <==> exists p: nat :: p < |s.pc| && p != q && Target(s.pc[p]) == q
    ensures forall p: nat, r: nat ::
              p < |s.pc| && r < |s.pc| && Target(s.pc[p]) == q && Target(s.pc[r]) == q ==> p == r
  {
    hide Init, Next, LocksOk, RunOk, CondOk, WaitOk, WokeOk, IntrOk, RefOk, Target;
    var t :| Execution(t) && t[|t| - 1] == s;
    ReachableInv(s);
    RunBirths(t, |t| - 1);
    if s.st[q] == USED {
      var p: nat :| p < |s.pc| && Target(s.pc[p]) == q;
      ForkTarget(s, p);
    }
  }

  // ---- parents ----

  /** The step of exit() at pc has given away every child below this index. */
  function Cleared(pc: Pc, n: nat): nat {
    match pc
    case ExitScan(i) => i
    case Waking(_, _, Reparented(i)) => i + 1
    case WakeHold(_, _, Reparented(i)) => i + 1
    case Waking(_, _, ParentWoken) => n
    case WakeHold(_, _, ParentWoken) => n
    case ExitReady => n
    case ExitHold => n
    case ExitZombie => n
    case Sched(Never) => n
    case Resume(Never) => n
    case _ => 0
  }

  predicate Exiting(pc: Pc) {
    match pc
    case Waking(_, _, cont) => cont.Reparented? || cont.ParentWoken?
    case WakeHold(_, _, cont) => cont.Reparented? || cont.ParentWoken?
    case Sched(next) => next.Never?
    case Resume(next) => next.Never?
    case _ => pc.ExitScan? || pc.ExitReady? || pc.ExitHold? || pc.ExitZombie?
  }

  /** The child whose parent the fork at pc has set, or -1. */
  function Born(pc: Pc): int {
    match pc
    case ForkWait(q) => q
    case ForkRun(q) => q
    case ForkSet(q) => q
    case YieldHold(b) => Born(b)
    case Sched(Back(b)) => Born(b)
    case Resume(Back(b)) => Born(b)
    case Inner(b, _) => Born(b)
    case _ => -1
  }

  /** Parents are alive, init always is, and fork's child has the caller for its parent. */
  ghost predicate FamilyOk(s: State) {
    && Shape(s) && !Unborn(s.st[INIT]) && !Exiting(s.pc[INIT])
    && (forall q: nat :: q < |s.st| && s.parent[q] >= 0 ==>
          s.parent[q] < |s.st| && !Unborn(s.st[s.parent[q]]) && q >= Cleared(s.pc[s.parent[q]], |s.st|))
    && (forall p: nat :: p < |s.pc| && Born(s.pc[p]) >= 0 ==>
          Born(s.pc[p]) < |s.st| && s.parent[Born(s.pc[p])] == p)
  }

  /** What a step of p, or of a scheduler about p, does to parents. */
  ghost predicate Family(s: State, s': State, p: nat)
    requires Shape(s) && Shape(s') && |s'.pc| == |s.pc| && p < |s.pc|
  {
    && (forall r: nat :: r < |s.pc| && r != p ==>
          s'.pc[r] == s.pc[r] || (s.st[r] == USED && s'.pc[r] == Resume(Forkret)))
    && (forall r: nat :: r < |s.pc| && Unborn(s'.st[r]) ==>
          || Unborn(s.st[r])
          || (r == p && s'.parent == s.parent && Cleared(s.pc[p], |s.pc|) >= |s.pc| && Exiting(s.pc[p])))
    && (forall q: nat :: q < |s.pc| ==> ParentMoves(s, s', p, q))
    && (|| Cleared(s'.pc[p], |s.pc|) <= Cleared(s.pc[p], |s.pc|)
        || (s.pc[p].ExitScan? && Cleared(s'.pc[p], |s.pc|) == s.pc[p].i + 1 <= |s.pc| && s'.parent[s.pc[p].i] != p)
        || (s.pc[p].ExitScan? && s.pc[p].i >= |s.pc|))
    && (Exiting(s'.pc[p]) ==> Exiting(s.pc[p]) || p != INIT)
    && (Born(s'.pc[p]) != -1 ==>
          || Born(s'.pc[p]) == Born(s.pc[p])
          || (0 <= Born(s'.pc[p]) < |s.pc| && s'.parent[Born(s'.pc[p])] == p))
  }

  /** The parent of q stays, or q is freed, or given to init, or p's new child. */
  predicate ParentMoves(s: State, s': State, p: nat, q: nat)
    requires Shape(s) && Shape(s') && |s'.pc| == |s.pc| && p < |s.pc| && q < |s.pc|
  {
    || s'.parent[q] == s.parent[q]
    || (s'.parent[q] == -1 && s.st[q] == ZOMBIE && s.pc[p].WaitHold? && s.pc[p].i == q)
    || (s'.parent[q] == INIT && s.parent[q] == p && s.pc[p].ExitScan?)
    || (s'.parent[q] == -1 && s.pc[p] == ForkFill(q) && s'.pc[p] == Idle)
    || (s'.parent[q] == p && s.pc[p] == ForkParent(q) && s'.pc[p] == ForkWait(q) && s.st[p] == s'.st[p] == RUNNING)
  }

  lemma BornTarget(pc: Pc)
    ensures Born(pc) >= 0 ==> Target(pc) == Born(pc)
    ensures Exiting(pc) || pc.ForkFill? || pc.ForkParent? ==> Born(pc) == -1
    ensures Born(pc) >= -1
  {
  }

  lemma LivingParent(s: State, s': State, p: nat, q: nat)
    requires FamilyOk(s) && Shape(s') && |s'.pc| == |s.pc| && p < |s.pc| && Family(s, s', p)
    requires q < |s'.st| && s'.parent[q] >= 0
    ensures s'.parent[q] < |s'.st| && !Unborn(s'.st[s'.parent[q]]) && q >= Cleared(s'.pc[s'.parent[q]], |s'.st|)
  {
    hide Born;
    assert ParentMoves(s, s', p, q);
  }

  lemma StillChild(s: State, s': State, p: nat, r: nat)
    requires FamilyOk(s) && ForkOk(s) && Shape(s') && |s'.pc| == |s.pc| && p < |s.pc| && Family(s, s', p)
    requires r < |s'.pc| && Born(s'.pc[r]) >= 0
    ensures Born(s'.pc[r]) < |s'.st| && s'.parent[Born(s'.pc[r])] == r
  {
    hide Born, Cleared, Exiting, Target, ForkOk, Unborn;
    BornTarget(s.pc[r]);
    BornTarget(s.pc[p]);
    NotBorn();
    var q := Born(s'.pc[r]);
    if q == Born(s.pc[r]) {
      assert ParentMoves(s, s', p, q);
      ForkTarget(s, r);
      if r != p { OneMaker(s, p, r); }
      ForkTargets(q);
      ExitsNotBorn(s.pc[p]);
    }
  }

  lemma NotBorn()
    ensures Born(Resume(Forkret)) == -1
  {
  }

  lemma ForkTargets(q: nat)
    ensures Target(ForkFill(q)) == q && Target(ForkParent(q)) == q
  {
  }

  lemma ExitsNotBorn(pc: Pc)
    ensures pc.ExitScan? || pc.ForkFill? || pc.ForkParent? ==> Born(pc) == -1
  {
  }

  lemma OneMaker(s: State, p: nat, r: nat)
    requires ForkOk(s) && p < |s.pc| && r < |s.pc| && p != r && Target(s.pc[r]) >= 0
    ensures Target(s.pc[p]) != Target(s.pc[r])
  {
  }

  lemma FamilyKeep(s: State, s': State, p: nat)
    requires FamilyOk(s) && ForkOk(s) && Shape(s') && |s'.pc| == |s.pc| && p < |s.pc| && Family(s, s', p)
    ensures FamilyOk(s')
  {
    hide Family, Born, Cleared, Exiting, Target, ForkOk, Unborn;
    forall q: nat | q < |s'.st| && s'.parent[q] >= 0
      ensures s'.parent[q] < |s'.st| && !Unborn(s'.st[s'.parent[q]]) && q >= Cleared(s'.pc[s'.parent[q]], |s'.st|)
    {
      LivingParent(s, s', p, q);
    }
    forall r: nat | r < |s'.pc| && Born(s'.pc[r]) >= 0
      ensures Born(s'.pc[r]) < |s'.st| && s'.parent[Born(s'.pc[r])] == r
    {
      StillChild(s, s', p, r);
    }
    InitStays(s, s', p);
  }

  lemma InitStays(s: State, s': State, p: nat)
    requires FamilyOk(s) && Shape(s') && |s'.pc| == |s.pc| && p < |s.pc| && Family(s, s', p)
    ensures !Unborn(s'.st[INIT]) && !Exiting(s'.pc[INIT])
  {
    hide Born, Cleared;
  }

  lemma MoveFamily(s: State, s': State, c: nat, p: nat)
    requires Shape(s) && MoveStep(s, s', c, p) && Shape(s') && |s'.pc| == |s.pc|
    ensures Family(s, s', p)
  {
    hide Moves, Cleared, Exiting, Born, Unborn;
    var m :| Moves(s, p, m) && Made(s, s', c, p, m);
    MoveCleared(s, p, m);
    MoveBorn(s, p, m);
  }

  lemma MoveCleared(s: State, p: nat, m: Move)
    requires Shape(s) && p < |s.pc| && Moves(s, p, m)
    ensures var n := |s.pc|;
            || Cleared(m.to, n) <= Cleared(s.pc[p], n)
            || (s.pc[p].ExitScan? && Cleared(m.to, n) == s.pc[p].i + 1 <= n && s.parent[s.pc[p].i] != p)
            || (s.pc[p].ExitScan? && s.pc[p].i >= n)
    ensures Exiting(m.to) ==> Exiting(s.pc[p]) || p != INIT
  {
  }

  lemma MoveBorn(s: State, p: nat, m: Move)
    requires Shape(s) && p < |s.pc| && Moves(s, p, m)
    ensures Born(m.to) == Born(s.pc[p])
  {
  }

  lemma NestFamily(s: State, s': State, c: nat, p: nat)
    requires LocksOk(s) && NestStep(s, s', c, p)
    ensures Shape(s') && p < |s.pc| == |s'.pc| && Family(s, s', p)
  {
    hide Family, NestStep, HeldOk, CtlOk, Target, Still, PcOk;
    var l, take := NestIs(s, s', c, p);
    assert PcOk(s.pc[p], |s.pc|);
    StillPlain(s.pc[p], |s.pc|);
    StillPlain(s'.pc[p], |s.pc|);
    PlainFamily(s, s', p);
  }

  lemma StillPlain(pc: Pc, n: nat)
    requires Still(pc) && PcOk(pc, n)
    ensures Born(pc) == -1 && !Exiting(pc) && Cleared(pc, n) == 0
  {
  }

  /** A step that changes no parent, and no state but p's, and does not go on with an exit or a fork. */
  lemma PlainFamily(s: State, s': State, p: nat)
    requires Shape(s) && Shape(s') && |s'.pc| == |s.pc| && p < |s.pc| && s'.parent == s.parent
    requires s'.st == s.st[p := s'.st[p]] && (Unborn(s'.st[p]) ==> Unborn(s.st[p]))
    requires s'.pc == s.pc[p := s'.pc[p]] && Born(s'.pc[p]) == Born(s.pc[p])
    requires Exiting(s'.pc[p]) ==> Exiting(s.pc[p])
    requires Cleared(s'.pc[p], |s.pc|) <= Cleared(s.pc[p], |s.pc|)
    ensures Family(s, s', p)
  {
    hide Born, Cleared, Exiting, Unborn;
  }

  lemma SchedulerFamily(s: State, s': State, c: nat, p: nat)
    requires Shape(s) && SchedulerStep(s, s', c, p) && Shape(s') && |s'.pc| == |s.pc| && p < |s.pc|
    ensures Family(s, s', p)
  {
  }

  lemma WriteFamily(s: State, s': State, c: nat, p: nat)
    requires LocksOk(s) && RunOk(s) && ForkOk(s) && WriteStep(s, s', c, p) && Shape(s') && |s'.pc| == |s.pc|
    requires p == INIT ==> !Exiting(s.pc[p])
    ensures Family(s, s', p)
  {
    hide Writes, HeldOk, CtlOk, PcsOk, RunOk, ForkOk, Family;
    RunningIfWrites(s, s', c, p);
    match s.pc[p]
    case ExitScan(i) => GivesAway(s, s', c, p);
    case ExitHold => Dies(s, s', c, p);
    case ForkParent(q) => SetsParent(s, s', c, p);
    case ForkSet(q) =>
      ForkTarget(s, p);
      LetsRun(s, s', c, p);
    case ForkFill(q) =>
      ForkTarget(s, p);
      FreesChild(s, s', c, p);
    case WaitHold(i, _) => Reaps(s, s', c, p);
    case ForkLook(q) => TakesSlot(s, s', c, p);
    case _ =>
      if SelfWriter(s.pc[p]) { WriteSelfFamily(s, s', c, p); } else { RousesOne(s, s', c, p); }
  }

  lemma GivesAway(s: State, s': State, c: nat, p: nat)
    requires Shape(s) && WriteStep(s, s', c, p) && s.pc[p].ExitScan? && Shape(s') && |s'.pc| == |s.pc|
    requires p != INIT
    ensures Family(s, s', p)
  {
    hide Unborn;
  }

  lemma Dies(s: State, s': State, c: nat, p: nat)
    requires Shape(s) && WriteStep(s, s', c, p) && s.pc[p].ExitHold? && Shape(s') && |s'.pc| == |s.pc|
    ensures Family(s, s', p)
  {
  }

  lemma SetsParent(s: State, s': State, c: nat, p: nat)
    requires Shape(s) && WriteStep(s, s', c, p) && s.pc[p].ForkParent? && Shape(s') && |s'.pc| == |s.pc|
    requires s.st[p] == RUNNING
    ensures Family(s, s', p)
  {
  }

  lemma LetsRun(s: State, s': State, c: nat, p: nat)
    requires Shape(s) && WriteStep(s, s', c, p) && s.pc[p].ForkSet? && Shape(s') && |s'.pc| == |s.pc|
    requires s.pc[p].q < |s.st| && s.st[s.pc[p].q] == USED
    ensures Family(s, s', p)
  {
  }

  lemma FreesChild(s: State, s': State, c: nat, p: nat)
    requires Shape(s) && WriteStep(s, s', c, p) && s.pc[p].ForkFill? && Shape(s') && |s'.pc| == |s.pc|
    requires s.pc[p].q < |s.st| && s.st[s.pc[p].q] == USED
    ensures Family(s, s', p)
  {
  }

  lemma Reaps(s: State, s': State, c: nat, p: nat)
    requires Shape(s) && WriteStep(s, s', c, p) && s.pc[p].WaitHold? && Shape(s') && |s'.pc| == |s.pc|
    requires s.st[p] == RUNNING
    ensures Family(s, s', p)
  {
  }

  lemma TakesSlot(s: State, s': State, c: nat, p: nat)
    requires Shape(s) && WriteStep(s, s', c, p) && s.pc[p].ForkLook? && Shape(s') && |s'.pc| == |s.pc|
    ensures Family(s, s', p)
  {
  }

  lemma RousesOne(s: State, s': State, c: nat, p: nat)
    requires Shape(s) && WriteStep(s, s', c, p) && (s.pc[p].WakeHold? || s.pc[p].KillHold?)
    requires Shape(s') && |s'.pc| == |s.pc|
    ensures Family(s, s', p)
  {
  }

  lemma WriteSelfFamily(s: State, s': State, c: nat, p: nat)
    requires LocksOk(s) && WriteStep(s, s', c, p) && s.st[p] == RUNNING && Shape(s') && |s'.pc| == |s.pc|
    requires SelfWriter(s.pc[p]) && !s.pc[p].ExitScan? && !s.pc[p].ExitHold? && !s.pc[p].ForkParent?
    ensures Family(s, s', p)
  {
    hide Family, Writes, HeldOk, CtlOk, PcsOk;
    if s.pc[p].Resume? && s.pc[p].next.Back? { StoredPc(s, p); BackIsPlain(s.pc[p].next.pc); }
    WriteSelfPlain(s, s', c, p);
    PlainFamily(s, s', p);
  }

  lemma WriteSelfPlain(s: State, s': State, c: nat, p: nat)
    requires Shape(s) && WriteStep(s, s', c, p) && s.st[p] == RUNNING && Shape(s') && |s'.pc| == |s.pc|
    requires SelfWriter(s.pc[p]) && !s.pc[p].ExitScan? && !s.pc[p].ExitHold? && !s.pc[p].ForkParent?
    requires s.pc[p].Resume? && s.pc[p].next.Back? ==> Plain(s.pc[p].next.pc)
    ensures s'.parent == s.parent && s'.st == s.st[p := s'.st[p]] && !Unborn(s'.st[p])
    ensures s'.pc == s.pc[p := s'.pc[p]] && Born(s'.pc[p]) == Born(s.pc[p])
    ensures !Exiting(s'.pc[p]) && Cleared(s'.pc[p], |s.pc|) == 0
  {
    match s.pc[p]
    case Idle => var k: nat :| Unlocks(s, s', c, p, k);
    case Resume(_) => ResumePlain(s, s', c, p);
    case CondHold(_) =>
    case YieldHold(_) =>
    case Falling(_, _) =>
    case _ =>
  }

  lemma ResumePlain(s: State, s': State, c: nat, p: nat)
    requires Shape(s) && WriteStep(s, s', c, p) && s.st[p] == RUNNING && s.pc[p].Resume?
    requires s.pc[p].next.Back? ==> Plain(s.pc[p].next.pc)
    ensures s'.parent == s.parent && s'.st == s.st && s'.pc == s.pc[p := s'.pc[p]]
    ensures Born(s'.pc[p]) == Born(s.pc[p]) && !Exiting(s'.pc[p]) && Cleared(s'.pc[p], |s.pc|) == 0
  {
  }

  predicate Plain(b: Pc) { b.Idle? || b.Woken? || b.ForkParent? || b.ForkRun? }

  lemma QuietFamily(s: State, s': State, p: nat)
    requires Shape(s) && Shape(s') && s'.pc == s.pc && s'.st == s.st && s'.parent == s.parent && p < |s.pc|
    ensures Family(s, s', p)
  {
  }

  lemma StepFamily(s: State, s': State, c: nat, p: nat)
    requires LocksOk(s) && RunOk(s) && ForkOk(s) && Step(s, s', c, p) && Shape(s') && |s'.pc| == |s.pc|
    requires !Exiting(s.pc[INIT])
    ensures p < |s.pc| && Family(s, s', p)
  {
    hide ForkOk, RunOk, HeldOk, CtlOk, PcsOk, Moves, Writes, Family;
    if MoveStep(s, s', c, p) {
      MoveFamily(s, s', c, p);
    } else if WriteStep(s, s', c, p) {
      WriteFamily(s, s', c, p);
    } else {
      PickedInTable(s, c, p);
      SchedulerFamily(s, s', c, p);
    }
  }

  lemma NextFamily(s: State, s': State) returns (p: nat)
    requires Inv(s) && Next(s, s') && Shape(s') && |s'.pc| == |s.pc| && !Exiting(s.pc[INIT])
    ensures p < |s.pc| && Family(s, s', p)
  {
    hide ForkOk, CondOk, WaitOk, WokeOk, IntrOk, RefOk, RunOk, HeldOk, CtlOk, PcsOk;
    hide MoveStep, WriteStep, NestStep, SchedulerStep, Family, Toggle, RefStep;
    if exists c: nat :: Toggle(s, s', c) {
      ToggleQuiet(s, s');
      p := INIT;
      QuietFamily(s, s', p);
    } else if exists c: nat, p: nat :: NestStep(s, s', c, p) {
      var c: nat, q: nat :| NestStep(s, s', c, q);
      p := q;
      NestFamily(s, s', c, p);
    } else if exists c: nat, p: nat :: RefStep(s, s', c, p) {
      RefQuiet(s, s');
      p := INIT;
      QuietFamily(s, s', p);
    } else {
      var c: nat, q: nat :| Step(s, s', c, q);
      p := q;
      StepFamily(s, s', c, p);
    }
  }

  lemma InitFamily(s: State)
    requires Init(s)
    ensures FamilyOk(s)
  {
  }

  lemma {:induction false} RunFamily(t: seq<State>, i: nat)
    requires Execution(t) && i < |t|
    ensures FamilyOk(t[i])
    decreases i
  {
    hide Next, LocksOk, RunOk, ForkOk, CondOk, WaitOk, WokeOk, IntrOk, RefOk, FamilyOk, Family;
    ExecutionInv(t, i);
    if i == 0 {
      InitFamily(t[0]);
    } else {
      ExecutionInv(t, i - 1);
      RunFamily(t, i - 1);
      assert Next(t[i - 1], t[i - 1 + 1]);
      InvShape(t[i]);
      InvShape(t[i - 1]);
      FamilyInit(t[i - 1]);
      var p := NextFamily(t[i - 1], t[i]);
      FamilyKeep(t[i - 1], t[i], p);
    }
  }

  lemma FamilyInit(s: State)
    requires FamilyOk(s)
    ensures !Exiting(s.pc[INIT])
  {
  }

  /** In every state of every run, every process that has a parent has a living one: exit leaves no orphans. */
  lemma NoOrphans(s: State, q: nat)
    requires Reachable(s) && q < |s.st| && s.parent[q] >= 0
    ensures s.parent[q] < |s.st| && s.st[s.parent[q]] in {RUNNABLE, RUNNING, SLEEPING}
  {
    hide Init, Next, Cleared, Born, Exiting;
    var t :| Execution(t) && t[|t| - 1] == s;
    RunFamily(t, |t| - 1);
  }

  /**
   Once fork has returned, its child is no longer USED. If fork had come as far as setting the child's
   parent, the child can run and has the caller for its parent; otherwise it is free again.
   */
  lemma ForkReturns(t: seq<State>, i: nat, p: nat)
    requires Execution(t) && i + 1 < |t| && p < |t[0].pc|
    ensures Shape(t[i]) && Shape(t[i + 1]) && |t[i].pc| == |t[i + 1].pc| == |t[0].pc|
    ensures var q := Target(t[i].pc[p]);
            q >= 0 && Target(t[i + 1].pc[p]) == -1 ==>
              && q < |t[0].pc|
              && if Born(t[i].pc[p]) == q then t[i + 1].st[q] == RUNNABLE && t[i + 1].parent[q] == p
                 else t[i + 1].st[q] == UNUSED
  {
    hide Init, LocksOk, RunOk, CondOk, WaitOk, WokeOk, IntrOk, RefOk, Next, Target, ForkOk, Born, BirthOk, FamilyOk;
    ExecutionInv(t, i);
    ExecutionInv(t, i + 1);
    RunBirths(t, i);
    RunFamily(t, i);
    InvShape(t[i]);
    InvShape(t[i + 1]);
    if Target(t[i].pc[p]) >= 0 && Target(t[i + 1].pc[p]) == -1 {
      assert Next(t[i], t[i + 1]);
      NextReturns(t[i], t[i + 1], p);
    }
  }

  lemma NextReturns(s: State, s': State, p: nat)
    requires Inv(s) && Next(s, s') && Shape(s') && p < |s.pc| == |s'.pc| && BirthOk(s) && FamilyOk(s)
    requires Target(s.pc[p]) >= 0 && Target(s'.pc[p]) == -1
    ensures var q := Target(s.pc[p]);
            q < |s.st| && if Born(s.pc[p]) == q then s'.st[q] == RUNNABLE && s'.parent[q] == p else s'.st[q] == UNUSED
  {
    hide CondOk, WaitOk, WokeOk, IntrOk, RefOk, RunOk, HeldOk, CtlOk, PcsOk, ForkOk, FamilyOk;
    hide MoveStep, WriteStep, NestStep, SchedulerStep, Toggle, RefStep, Target, Born;
    if exists c: nat :: Toggle(s, s', c) {
      ToggleQuiet(s, s');
    } else if exists c: nat, r: nat :: NestStep(s, s', c, r) {
      var c: nat, r: nat :| NestStep(s, s', c, r);
      var l, take := NestIs(s, s', c, r);
    } else if exists c: nat, r: nat :: RefStep(s, s', c, r) {
      RefQuiet(s, s');
    } else {
      var c: nat, r: nat :| Step(s, s', c, r);
      StepReturns(s, s', c, r, p);
    }
  }

  lemma StepReturns(s: State, s': State, c: nat, r: nat, p: nat)
    requires LocksOk(s) && RunOk(s) && ForkOk(s) && BirthOk(s) && FamilyOk(s)
    requires Step(s, s', c, r) && Shape(s') && p < |s.pc| == |s'.pc|
    requires Target(s.pc[p]) >= 0 && Target(s'.pc[p]) == -1
    ensures var q := Target(s.pc[p]);
            q < |s.st| && if Born(s.pc[p]) == q then s'.st[q] == RUNNABLE && s'.parent[q] == p else s'.st[q] == UNUSED
  {
    hide RunOk, HeldOk, CtlOk, PcsOk, ForkOk, FamilyOk, Moves, Writes, Target, Born;
    ForkTarget(s, p);
    if MoveStep(s, s', c, r) {
      var m :| Moves(s, r, m) && Made(s, s', c, r, m);
      MoveTarget(s, r, m);
    } else if WriteStep(s, s', c, r) {
      RunningIfWrites(s, s', c, r);
      WriteReturns(s, s', c, r, p);
    } else {
      SchedulerTarget(s, s', c, r, p);
    }
  }

  lemma SchedulerTarget(s: State, s': State, c: nat, r: nat, p: nat)
    requires Shape(s) && SchedulerStep(s, s', c, r) && p < |s.pc| == |s'.pc|
    ensures Target(s'.pc[p]) == Target(s.pc[p])
  {
  }

  lemma WriteReturns(s: State, s': State, c: nat, r: nat, p: nat)
    requires Shape(s) && ForkOk(s) && BirthOk(s) && FamilyOk(s) && WriteStep(s, s', c, r) && s.st[r] == RUNNING
    requires Shape(s') && p < |s.pc| == |s'.pc| && Target(s.pc[p]) >= 0 && Target(s'.pc[p]) == -1
    requires Target(s.pc[p]) < |s.st|
    ensures var q := Target(s.pc[p]);
            if Born(s.pc[p]) == q then s'.st[q] == RUNNABLE && s'.parent[q] == p else s'.st[q] == UNUSED
  {
    hide ForkOk, Writes, Target, Born, FamilyOk;
    if SelfWriter(s.pc[r]) {
      WriteSelfFrame(s, s', c, r);
      WriteSelfTarget(s, s', c, r);
    } else if s.pc[r].ForkSet? {
      SetTarget(s.pc[r]);
      ForkTarget(s, r);
      SetReturns(s, s', c, r, p);
    } else {
      OtherMoves(s, s', c, r);
      OtherReturns(s, s', c, r);
    }
  }

  lemma SetTarget(pc: Pc)
    requires pc.ForkSet?
    ensures Target(pc) == Born(pc) == pc.q
  {
  }

  lemma SetReturns(s: State, s': State, c: nat, r: nat, p: nat)
    requires Shape(s) && BirthOk(s) && FamilyOk(s) && WriteStep(s, s', c, r) && s.pc[r].ForkSet?
    requires s.pc[r].q < |s.st| && s.st[s.pc[r].q] == USED
    requires Shape(s') && p < |s.pc| == |s'.pc| && Target(s.pc[p]) >= 0 && Target(s'.pc[p]) == -1
    ensures p == r && s'.st[s.pc[r].q] == RUNNABLE && s'.parent[s.pc[r].q] == r
    ensures Target(s.pc[r]) == Born(s.pc[r]) == s.pc[r].q
  {
    hide Cleared, Exiting;
    assert Born(s.pc[r]) == s.pc[r].q;
  }

  lemma OtherReturns(s: State, s': State, c: nat, r: nat)
    requires Shape(s) && WriteStep(s, s', c, r) && !SelfWriter(s.pc[r]) && !s.pc[r].ForkSet?
    ensures s.pc[r].ForkFill? ==> s.pc[r].q < |s.st| == |s'.st| && s'.st[s.pc[r].q] == UNUSED
    ensures Target(s.pc[r]) >= 0 ==> s.pc[r].ForkFill? && Target(s.pc[r]) == s.pc[r].q && Born(s.pc[r]) == -1
  {
  }

  // ---- wait and kill ----

  /** A step that frees a process is the return of a wait for it. */
  predicate Reaped(pc: Pc, pc': Pc, q: nat) {
    pc.WaitHold? && pc.i == q && pc' == WaitDone(true)
  }

  /** A slot that is free becomes USED, if anything. */
  lemma {:induction false} FreeTillUsed(t: seq<State>, i: nat, j: nat, q: nat)
    requires Execution(t) && i <= j < |t| && q < |t[0].pc|
    requires q < |t[i].st| && t[i].st[q] == UNUSED
    requires forall m: nat :: i <= m <= j && q < |t[m].st| ==> t[m].st[q] != USED
    ensures q < |t[j].st| && t[j].st[q] == UNUSED
    decreases j
  {
    hide Next, LocksOk, RunOk, ForkOk, CondOk, WaitOk, WokeOk, IntrOk, RefOk, Init;
    if i < j {
      FreeTillUsed(t, i, j - 1, q);
      ExecutionInv(t, j - 1);
      ExecutionInv(t, j);
      InvShape(t[j - 1]);
      InvShape(t[j]);
      assert Next(t[j - 1], t[j - 1 + 1]);
      NextFromFree(t[j - 1], t[j], q);
    }
  }

  lemma NextFromFree(s: State, s': State, q: nat)
    requires Inv(s) && Next(s, s') && Shape(s') && q < |s.pc| == |s'.pc| && s.st[q] == UNUSED
    ensures s'.st[q] == UNUSED || s'.st[q] == USED
  {
    hide CondOk, WaitOk, WokeOk, IntrOk, RefOk, RunOk, HeldOk, CtlOk, PcsOk, ForkOk;
    hide MoveStep, WriteStep, NestStep, SchedulerStep, Toggle, RefStep;
    if exists c: nat :: Toggle(s, s', c) {
      ToggleQuiet(s, s');
    } else if exists c: nat, r: nat :: NestStep(s, s', c, r) {
      var c: nat, r: nat :| NestStep(s, s', c, r);
      var l, take := NestIs(s, s', c, r);
    } else if exists c: nat, r: nat :: RefStep(s, s', c, r) {
      RefQuiet(s, s');
    } else {
      var c: nat, r: nat :| Step(s, s', c, r);
      StepFromFree(s, s', c, r, q);
    }
  }

  lemma StepFromFree(s: State, s': State, c: nat, r: nat, q: nat)
    requires LocksOk(s) && RunOk(s) && ForkOk(s) && Step(s, s', c, r) && Shape(s')
    requires q < |s.pc| == |s'.pc| && s.st[q] == UNUSED
    ensures s'.st[q] == UNUSED || s'.st[q] == USED
  {
    hide RunOk, HeldOk, CtlOk, PcsOk, ForkOk, Moves, Writes;
    if WriteStep(s, s', c, r) && !MoveStep(s, s', c, r) {
      RunningIfWrites(s, s', c, r);
      if SelfWriter(s.pc[r]) {
        WriteSelfFrame(s, s', c, r);
      } else if s.pc[r].ForkSet? {
        ForkTarget(s, r);
        SetChanges(s, s', c, r, q);
      } else {
        var i := OtherStates(s, s', c, r);
      }
    }
  }

  lemma SetChanges(s: State, s': State, c: nat, r: nat, q: nat)
    requires Shape(s) && WriteStep(s, s', c, r) && s.pc[r].ForkSet? && Shape(s') && q < |s.st| == |s'.st|
    requires Target(s.pc[r]) < |s.st| && s.st[Target(s.pc[r])] == USED && s.st[q] != USED
    ensures s'.st[q] == s.st[q]
  {
  }

  /** The child that the wait() at pc has found, or -1. */
  function Found(pc: Pc): int {
    match pc case WaitHold(i, _) => i case Inner(b, _) => Found(b) case _ => -1
  }

  /** The slot that the fork at pc has taken and not yet given a parent, or -1. */
  function Taken(pc: Pc): int {
    match pc
    case ForkFill(q) => q
    case ForkParent(q) => q
    case YieldHold(b) => Taken(b)
    case Sched(Back(b)) => Taken(b)
    case Resume(Back(b)) => Taken(b)
    case Inner(b, _) => Taken(b)
    case _ => -1
  }

  /** wait() has found a child of its caller; free slots and those just taken have no parent. */
  ghost predicate WaiterOk(s: State) {
    && Shape(s)
    && (forall p: nat :: p < |s.pc| && 0 <= Found(s.pc[p]) < |s.pc| ==> s.parent[Found(s.pc[p])] == p)
    && (forall p: nat :: p < |s.pc| && 0 <= Taken(s.pc[p]) < |s.pc| ==> s.parent[Taken(s.pc[p])] == -1)
    && (forall q: nat :: q < |s.st| && s.st[q] == UNUSED ==> s.parent[q] == -1)
  }

  /** wait() has seen a child since it took wait_lock, or sleeps because it has. */
  predicate SawChild(pc: Pc) {
    match pc
    case WaitScan(_, kids) => kids
    case WaitHold(_, kids) => kids
    case Inner(b, _) => SawChild(b)
    case SleepHold(lk, _) => lk.WaitLock?
    case Falling(lk, _) => lk.WaitLock?
    case Sched(next) => next.Reacquire? && next.lk.WaitLock?
    case Resume(next) => next.Reacquire? && next.lk.WaitLock?
    case _ => false
  }

  /** What a step of p, or of a scheduler about p, does to those in wait() and to free slots. */
  ghost predicate Waiter(s: State, s': State, p: nat)
    requires Shape(s) && Shape(s') && |s'.pc| == |s.pc| && p < |s.pc|
  {
    && (forall r: nat :: r < |s.pc| && r != p ==> s'.pc[r] == s.pc[r] || s'.pc[r] == Resume(Forkret))
    && (|| Found(s'.pc[p]) == -1
        || (s'.parent == s.parent && (Found(s'.pc[p]) == Found(s.pc[p]) || HasParent(s, Found(s'.pc[p]), p))))
    && (|| Taken(s'.pc[p]) == -1
        || (s'.parent == s.parent && (Taken(s'.pc[p]) == Taken(s.pc[p]) || FreeSlot(s, Taken(s'.pc[p])))))
    && (forall q: nat :: q < |s.pc| ==> ParentMoves(s, s', p, q))
    && (forall q: nat :: q < |s.st| && s'.st[q] == UNUSED ==> s.st[q] == UNUSED || s'.parent[q] == -1)
    && (s'.parent == s.parent || s.pc[p].ForkFill? || forall r: nat :: r < |s.pc| && r != p ==> Found(s.pc[r]) == -1)
    && (SawChild(s'.pc[p]) ==> s'.parent == s.parent && (SawChild(s.pc[p]) || 0 <= Found(s.pc[p]) < |s.pc|))
  }

  predicate HasParent(s: State, q: int, p: nat) { 0 <= q < |s.parent| && s.parent[q] == p }

  predicate FreeSlot(s: State, q: int) { 0 <= q < |s.st| && s.st[q] == UNUSED }

  lemma FoundFacts()
    ensures Found(Resume(Forkret)) == Taken(Resume(Forkret)) == Found(Idle) == Taken(Idle) == -1
    ensures forall q: nat :: Found(ForkFill(q)) == Found(ForkParent(q)) == Found(ForkWait(q)) == -1
    ensures forall q: nat :: Taken(ForkWait(q)) == -1
    ensures forall q: nat :: Taken(ForkFill(q)) == Taken(ForkParent(q)) == q
    ensures forall i: nat :: Found(ExitScan(i)) == Taken(ExitScan(i)) == -1
  {
  }

  lemma TakenTarget(pc: Pc)
    ensures Taken(pc) >= 0 ==> Target(pc) == Taken(pc)
    ensures Taken(pc) >= -1 && Found(pc) >= -1
  {
  }

  lemma WaiterKeep(s: State, s': State, p: nat)
    requires WaiterOk(s) && ForkOk(s) && Shape(s') && |s'.pc| == |s.pc| && p < |s.pc| && Waiter(s, s', p)
    ensures WaiterOk(s')
  {
    hide Waiter, Found, Taken, Target, ForkOk;
    forall r: nat | r < |s'.pc| && 0 <= Found(s'.pc[r]) < |s'.pc| ensures s'.parent[Found(s'.pc[r])] == r {
      FoundStays(s, s', p, r);
    }
    forall r: nat | r < |s'.pc| && 0 <= Taken(s'.pc[r]) < |s'.pc| ensures s'.parent[Taken(s'.pc[r])] == -1 {
      TakenStays(s, s', p, r);
    }
    forall q: nat | q < |s'.st| && s'.st[q] == UNUSED ensures s'.parent[q] == -1 { FreeStays(s, s', p, q); }
  }

  lemma FoundStays(s: State, s': State, p: nat, r: nat)
    requires WaiterOk(s) && Shape(s') && |s'.pc| == |s.pc| && p < |s.pc| && Waiter(s, s', p)
    requires r < |s'.pc| && 0 <= Found(s'.pc[r]) < |s'.pc|
    ensures s'.parent[Found(s'.pc[r])] == r
  {
    hide Found, Taken;
    FoundFacts();
    if s.pc[p].ForkFill? { assert Taken(s.pc[p]) == s.pc[p].q; }
    assert ParentMoves(s, s', p, Found(s'.pc[r]));
  }

  lemma TakenStays(s: State, s': State, p: nat, r: nat)
    requires WaiterOk(s) && ForkOk(s) && Shape(s') && |s'.pc| == |s.pc| && p < |s.pc| && Waiter(s, s', p)
    requires r < |s'.pc| && 0 <= Taken(s'.pc[r]) < |s'.pc|
    ensures s'.parent[Taken(s'.pc[r])] == -1
  {
    hide Found, Taken, Target, ForkOk;
    FoundFacts();
    assert ParentMoves(s, s', p, Taken(s'.pc[r]));
    if r != p {
      TakenTarget(s.pc[r]);
      if Taken(s.pc[r]) >= 0 {
        ForkTarget(s, r);
        OneMaker(s, p, r);
        ForkTargets(Taken(s.pc[r]));
      }
    }
  }

  lemma FreeStays(s: State, s': State, p: nat, q: nat)
    requires WaiterOk(s) && ForkOk(s) && Shape(s') && |s'.pc| == |s.pc| && p < |s.pc| && Waiter(s, s', p)
    requires q < |s'.st| && s'.st[q] == UNUSED
    ensures s'.parent[q] == -1
  {
    hide Found, Taken, Target, ForkOk;
    assert ParentMoves(s, s', p, q);
    if s.pc[p] == ForkParent(q) {
      ForkTargets(q);
      ForkTarget(s, p);
    }
  }

  lemma MoveWaiter(s: State, s': State, c: nat, p: nat)
    requires Shape(s) && MoveStep(s, s', c, p) && Shape(s') && |s'.pc| == |s.pc|
    ensures Waiter(s, s', p)
  {
    hide Moves, Found, Taken, SawChild;
    var m :| Moves(s, p, m) && Made(s, s', c, p, m);
    MoveSees(s, p, m);
    MoveFinds(s, p, m);
    MoveTakes(s, p, m);
  }

  lemma MoveFinds(s: State, p: nat, m: Move)
    requires Shape(s) && p < |s.pc| && Moves(s, p, m)
    ensures Found(m.to) == -1 || HasParent(s, Found(m.to), p)
  {
  }

  lemma MoveSees(s: State, p: nat, m: Move)
    requires Shape(s) && p < |s.pc| && Moves(s, p, m)
    ensures SawChild(m.to) ==> SawChild(s.pc[p]) || 0 <= Found(s.pc[p]) < |s.pc|
  {
  }

  lemma MoveTakes(s: State, p: nat, m: Move)
    requires Shape(s) && p < |s.pc| && Moves(s, p, m)
    ensures Taken(m.to) == Taken(s.pc[p])
  {
  }

  lemma QuietWaiter(s: State, s': State, p: nat)
    requires Shape(s) && Shape(s') && |s'.pc| == |s.pc| && p < |s.pc| && s'.st == s.st && s'.parent == s.parent
    requires forall r: nat :: r < |s.pc| && r != p ==> s'.pc[r] == s.pc[r]
    requires Found(s'.pc[p]) == Found(s.pc[p]) && Taken(s'.pc[p]) == Taken(s.pc[p])
    requires SawChild(s'.pc[p]) == SawChild(s.pc[p])
    ensures Waiter(s, s', p)
  {
    hide Found, Taken, SawChild;
  }

  lemma NestWaiter(s: State, s': State, c: nat, p: nat)
    requires LocksOk(s) && NestStep(s, s', c, p)
    ensures Shape(s') && p < |s.pc| == |s'.pc| && Waiter(s, s', p)
  {
    hide Waiter, HeldOk, CtlOk, PcsOk;
    var l, take := NestIs(s, s', c, p);
    NestFinds(s, s', c, p);
    NestSees(s, s', c, p);
    QuietWaiter(s, s', p);
  }

  lemma NestSees(s: State, s': State, c: nat, p: nat)
    requires Shape(s) && NestStep(s, s', c, p) && |s'.pc| == |s.pc|
    ensures SawChild(s'.pc[p]) == SawChild(s.pc[p])
  {
  }

  lemma NestFinds(s: State, s': State, c: nat, p: nat)
    requires Shape(s) && NestStep(s, s', c, p) && |s'.pc| == |s.pc|
    ensures Found(s'.pc[p]) == Found(s.pc[p]) && Taken(s'.pc[p]) == Taken(s.pc[p])
  {
  }

  lemma SchedulerWaiter(s: State, s': State, c: nat, p: nat)
    requires Shape(s) && SchedulerStep(s, s', c, p) && Shape(s') && |s'.pc| == |s.pc| && p < |s.pc|
    ensures Waiter(s, s', p)
  {
  }

  /** A write that changes parents, other than by giving up on a new process, is made under wait_lock. */
  lemma WriteGuards(s: State, s': State, c: nat, p: nat)
    requires Shape(s) && WriteStep(s, s', c, p)
    ensures || s'.parent == s.parent || s.pc[p].ForkFill? || WaitLock !in s.locks || WaitLock in Holds(s.pc[p], p)
  {
    if s.pc[p].Idle? { var k: nat :| Unlocks(s, s', c, p, k); }
  }

  lemma FinderHolds(s: State, r: nat)
    requires LocksOk(s) && RunOk(s) && r < |s.pc| && Found(s.pc[r]) >= 0
    ensures exists c: nat :: c < |s.ctl| && s.ctl[c] == Run(r)
    ensures WaitLock in Holds(s.pc[r], r)
  {
    hide HeldOk, CtlOk;
    assert PcOk(s.pc[r], |s.pc|);
    FinderAt(s.pc[r], r, |s.pc|);
  }

  lemma FinderAt(pc: Pc, r: nat, n: nat)
    requires PcOk(pc, n) && Found(pc) >= 0
    ensures WaitLock in Holds(pc, r) && (pc.WaitHold? || pc.Inner?)
  {
    if pc.Inner? { assert pc.back.WaitHold?; }
  }

  lemma NobodyElseFound(s: State, s': State, c: nat, p: nat)
    requires LocksOk(s) && RunOk(s) && WriteStep(s, s', c, p)
    ensures || s'.parent == s.parent || s.pc[p].ForkFill?
            || forall r: nat :: r < |s.pc| && r != p ==> Found(s.pc[r]) == -1
  {
    hide Writes, RunOk, CtlOk, PcsOk, Found, Holds;
    WriteGuards(s, s', c, p);
    if s'.parent != s.parent && !s.pc[p].ForkFill? {
      forall r: nat | r < |s.pc| && r != p ensures Found(s.pc[r]) == -1 {
        TakenTarget(s.pc[r]);
        if Found(s.pc[r]) >= 0 {
          FinderHolds(s, r);
          var d: nat :| d < |s.ctl| && s.ctl[d] == Run(r);
          assert WaitLock in HeldBy(s, d);
          if WaitLock in Holds(s.pc[p], p) { OneHolder(s, c, d, WaitLock); }
        }
      }
    }
  }

  lemma WriteWaiter(s: State, s': State, c: nat, p: nat)
    requires LocksOk(s) && RunOk(s) && ForkOk(s) && WriteStep(s, s', c, p) && Shape(s') && |s'.pc| == |s.pc|
    requires p == INIT ==> !Exiting(s.pc[p])
    ensures Waiter(s, s', p)
  {
    hide Writes, HeldOk, CtlOk, PcsOk, RunOk, ForkOk, Found, Taken, Exiting, Cleared, Born, ParentMoves, SawChild;
    WriteSees(s, s', c, p);
    RunningIfWrites(s, s', c, p);
    NobodyElseFound(s, s', c, p);
    WriteFamily(s, s', c, p);
    WriteGoes(s, s', c, p);
    WriteFinds(s, s', c, p);
    WriteFrees(s, s', c, p);
  }

  lemma WriteSees(s: State, s': State, c: nat, p: nat)
    requires LocksOk(s) && WriteStep(s, s', c, p) && |s'.pc| == |s.pc|
    ensures SawChild(s'.pc[p]) ==> s'.parent == s.parent && SawChild(s.pc[p])
  {
    hide HeldOk, CtlOk, PcsOk, Writes;
    WriteGoes(s, s', c, p);
    if s'.pc[p].Sched? { SchedSees(s, s', c, p); }
  }

  lemma SchedSees(s: State, s': State, c: nat, p: nat)
    requires LocksOk(s) && WriteStep(s, s', c, p) && |s'.pc| == |s.pc| && s'.pc[p].Sched?
    ensures SawChild(s'.pc[p]) ==> s'.parent == s.parent && SawChild(s.pc[p])
  {
    hide Writes, HeldOk, CtlOk, PcsOk;
    if s.pc[p].Falling? {
      FallSees(s, s', c, p);
    } else if s.pc[p].Resume? {
      ResumeNoSched(s, s', c, p);
      if s.pc[p].next.Back? { StoredPc(s, p); BackIsPlain(s.pc[p].next.pc); }
    } else if s.pc[p].Idle? {
      IdleTakes(s, s', c, p);
    } else {
      SchedsBack(s, s', c, p);
    }
  }

  lemma FallSees(s: State, s': State, c: nat, p: nat)
    requires Shape(s) && WriteStep(s, s', c, p) && |s'.pc| == |s.pc| && s.pc[p].Falling?
    ensures s'.parent == s.parent && SawChild(s'.pc[p]) == SawChild(s.pc[p])
  {
  }

  lemma ResumeNoSched(s: State, s': State, c: nat, p: nat)
    requires Shape(s) && WriteStep(s, s', c, p) && |s'.pc| == |s.pc| && s.pc[p].Resume?
    ensures s'.pc[p].Sched? ==> s.pc[p].next.Back? && s'.pc[p] == s.pc[p].next.pc && s'.parent == s.parent
  {
  }

  lemma SchedsBack(s: State, s': State, c: nat, p: nat)
    requires Shape(s) && WriteStep(s, s', c, p) && |s'.pc| == |s.pc|
    requires !s.pc[p].Falling? && !s.pc[p].Resume? && !s.pc[p].Idle?
    ensures s'.pc[p].Sched? ==> !s'.pc[p].next.Reacquire?
  {
  }

  lemma WriteFrees(s: State, s': State, c: nat, p: nat)
    requires Shape(s) && WriteStep(s, s', c, p) && s.st[p] == RUNNING && Shape(s') && |s'.pc| == |s.pc| && ForkOk(s)
    ensures forall q: nat :: q < |s.st| && s'.st[q] == UNUSED ==> s.st[q] == UNUSED || s'.parent[q] == -1
  {
    hide Writes, ForkOk;
    if SelfWriter(s.pc[p]) {
      WriteSelfFrame(s, s', c, p);
      SelfNotFree(s, s', c, p);
    } else if s.pc[p].ForkSet? {
      SetFrees(s, s', c, p);
    } else {
      var i := OtherStates(s, s', c, p);
      OtherFrees(s, s', c, p);
    }
  }

  lemma SelfNotFree(s: State, s': State, c: nat, p: nat)
    requires Shape(s) && WriteStep(s, s', c, p) && s.st[p] == RUNNING && SelfWriter(s.pc[p]) && Shape(s')
    requires |s'.pc| == |s.pc|
    ensures s'.st[p] != UNUSED
  {
    if s.pc[p].Idle? { var k: nat :| Unlocks(s, s', c, p, k); }
  }

  lemma SetFrees(s: State, s': State, c: nat, p: nat)
    requires Shape(s) && WriteStep(s, s', c, p) && s.pc[p].ForkSet? && Shape(s') && |s'.pc| == |s.pc|
    ensures forall q: nat :: q < |s.st| && s'.st[q] == UNUSED ==> s.st[q] == UNUSED
  {
  }

  lemma OtherFrees(s: State, s': State, c: nat, p: nat)
    requires Shape(s) && WriteStep(s, s', c, p) && !SelfWriter(s.pc[p]) && !s.pc[p].ForkSet? && Shape(s')
    requires |s'.pc| == |s.pc|
    ensures s.pc[p].WaitHold? ==> s.pc[p].i < |s.st| && s'.parent[s.pc[p].i] == -1 && s'.st == s.st[s.pc[p].i := UNUSED]
    ensures s.pc[p].ForkFill? ==> s.pc[p].q < |s.st| && s'.parent[s.pc[p].q] == -1
    ensures s.pc[p].WakeHold? || s.pc[p].KillHold? ==>
              forall q: nat :: q < |s.st| && s'.st[q] == UNUSED ==> s.st[q] == UNUSED
  {
  }

  lemma WriteFinds(s: State, s': State, c: nat, p: nat)
    requires LocksOk(s) && WriteStep(s, s', c, p) && |s'.pc| == |s.pc|
    ensures Found(s'.pc[p]) == -1
    ensures || Taken(s'.pc[p]) == -1
            || (s'.parent == s.parent && (Taken(s'.pc[p]) == Taken(s.pc[p]) || FreeSlot(s, Taken(s'.pc[p]))))
  {
    hide HeldOk, CtlOk, PcsOk, Writes;
    WriteGoes(s, s', c, p);
    NoneFound(s'.pc[p]);
    if s.pc[p].Resume? {
      if s.pc[p].next.Back? { StoredPc(s, p); BackIsPlain(s.pc[p].next.pc); }
      ResumeFinds(s, s', c, p);
    } else if s.pc[p].YieldHold? {
      YieldTakes(s, s', c, p);
    } else {
      OtherTakes(s, s', c, p);
      TakenPlain(s'.pc[p]);
      if s.pc[p].ForkLook? { LookTakes(s, s', c, p); }
    }
  }

  lemma ResumeFinds(s: State, s': State, c: nat, p: nat)
    requires Shape(s) && WriteStep(s, s', c, p) && s.pc[p].Resume?
    requires s.pc[p].next.Back? ==> Plain(s.pc[p].next.pc)
    ensures s'.parent == s.parent && Found(s'.pc[p]) == -1 && Taken(s'.pc[p]) == Taken(s.pc[p])
  {
  }

  lemma NoneFound(pc: Pc)
    requires AfterWrite(pc)
    ensures Found(pc) == -1
  {
  }

  lemma YieldTakes(s: State, s': State, c: nat, p: nat)
    requires Shape(s) && WriteStep(s, s', c, p) && s.pc[p].YieldHold?
    ensures s'.parent == s.parent && |s'.pc| == |s.pc| && Taken(s'.pc[p]) == Taken(s.pc[p])
  {
  }

  lemma LookTakes(s: State, s': State, c: nat, p: nat)
    requires Shape(s) && WriteStep(s, s', c, p) && s.pc[p].ForkLook?
    ensures s'.parent == s.parent && |s'.pc| == |s.pc| && FreeSlot(s, Taken(s'.pc[p]))
  {
  }

  lemma OtherTakes(s: State, s': State, c: nat, p: nat)
    requires Shape(s) && WriteStep(s, s', c, p) && !s.pc[p].Resume? && !s.pc[p].YieldHold? && |s'.pc| == |s.pc|
    ensures s'.pc[p].ForkFill? ==> s.pc[p].ForkLook?
    ensures !s'.pc[p].ForkParent? && (s'.pc[p].Sched? ==> !s'.pc[p].next.Back?)
  {
    hide Writes;
    if s.pc[p].Idle? {
      IdleTakes(s, s', c, p);
    } else if SelfWriter(s.pc[p]) {
      SelfTakes(s, s', c, p);
    } else if s.pc[p].ForkSet? {
      SetTakes(s, s', c, p);
    } else {
      NotSelfTakes(s, s', c, p);
    }
  }

  lemma IdleTakes(s: State, s': State, c: nat, p: nat)
    requires Shape(s) && WriteStep(s, s', c, p) && s.pc[p].Idle? && |s'.pc| == |s.pc|
    ensures s'.pc[p].Waking?
  {
    var k: nat :| Unlocks(s, s', c, p, k);
  }

  lemma SelfTakes(s: State, s': State, c: nat, p: nat)
    requires Shape(s) && WriteStep(s, s', c, p) && !s.pc[p].Resume? && !s.pc[p].YieldHold? && !s.pc[p].Idle?
    requires SelfWriter(s.pc[p]) && |s'.pc| == |s.pc|
    ensures !s'.pc[p].ForkFill? && !s'.pc[p].ForkParent? && (s'.pc[p].Sched? ==> !s'.pc[p].next.Back?)
  {
  }

  lemma SetTakes(s: State, s': State, c: nat, p: nat)
    requires Shape(s) && WriteStep(s, s', c, p) && s.pc[p].ForkSet? && |s'.pc| == |s.pc|
    ensures s'.pc[p] == Idle
  {
  }

  lemma NotSelfTakes(s: State, s': State, c: nat, p: nat)
    requires Shape(s) && WriteStep(s, s', c, p) && !SelfWriter(s.pc[p]) && !s.pc[p].ForkSet? && |s'.pc| == |s.pc|
    ensures s'.pc[p].ForkFill? ==> s.pc[p].ForkLook?
    ensures !s'.pc[p].ForkParent? && !s'.pc[p].Sched?
  {
  }

  lemma TakenPlain(pc: Pc)
    requires AfterWrite(pc) && !pc.ForkParent? && (pc.Sched? ==> !pc.next.Back?)
    ensures Taken(pc) == -1 || pc.ForkFill?
  {
  }

  lemma StepWaiter(s: State, s': State, c: nat, p: nat)
    requires LocksOk(s) && RunOk(s) && ForkOk(s) && Step(s, s', c, p) && Shape(s') && |s'.pc| == |s.pc|
    requires !Exiting(s.pc[INIT])
    ensures p < |s.pc| && Waiter(s, s', p)
  {
    hide ForkOk, RunOk, HeldOk, CtlOk, PcsOk, Moves, Writes, Waiter;
    if MoveStep(s, s', c, p) {
      MoveWaiter(s, s', c, p);
    } else if WriteStep(s, s', c, p) {
      WriteWaiter(s, s', c, p);
    } else {
      PickedInTable(s, c, p);
      SchedulerWaiter(s, s', c, p);
    }
  }

  lemma NextWaiter(s: State, s': State) returns (p: nat)
    requires Inv(s) && Next(s, s') && Shape(s') && |s'.pc| == |s.pc| && !Exiting(s.pc[INIT])
    ensures p < |s.pc| && Waiter(s, s', p)
  {
    hide ForkOk, CondOk, WaitOk, WokeOk, IntrOk, RefOk, RunOk, HeldOk, CtlOk, PcsOk;
    hide MoveStep, WriteStep, NestStep, SchedulerStep, Waiter, Toggle, RefStep;
    if exists c: nat :: Toggle(s, s', c) {
      ToggleQuiet(s, s');
      p := INIT;
      QuietWaiter(s, s', p);
    } else if exists c: nat, p: nat :: NestStep(s, s', c, p) {
      var c: nat, q: nat :| NestStep(s, s', c, q);
      p := q;
      NestWaiter(s, s', c, p);
    } else if exists c: nat, p: nat :: RefStep(s, s', c, p) {
      RefQuiet(s, s');
      p := INIT;
      QuietWaiter(s, s', p);
    } else {
      var c: nat, q: nat :| Step(s, s', c, q);
      p := q;
      StepWaiter(s, s', c, p);
    }
  }

  lemma InitWaiter(s: State)
    requires Init(s)
    ensures WaiterOk(s)
  {
  }

  lemma {:induction false} RunWaiter(t: seq<State>, i: nat)
    requires Execution(t) && i < |t|
    ensures WaiterOk(t[i])
    decreases i
  {
    hide Next, LocksOk, RunOk, ForkOk, CondOk, WaitOk, WokeOk, IntrOk, RefOk, FamilyOk, WaiterOk, Waiter;
    ExecutionInv(t, i);
    if i == 0 {
      InitWaiter(t[0]);
    } else {
      ExecutionInv(t, i - 1);
      RunWaiter(t, i - 1);
      RunFamily(t, i - 1);
      assert Next(t[i - 1], t[i - 1 + 1]);
      InvShape(t[i]);
      InvShape(t[i - 1]);
      FamilyInit(t[i - 1]);
      var p := NextWaiter(t[i - 1], t[i]);
      WaiterKeep(t[i - 1], t[i], p);
    }
  }

  /** The step of a wait() that succeeds: the child is a zombie, its caller's own, and is then free. */
  lemma WaitReaps(t: seq<State>, i: nat, p: nat, q: nat)
    requires Execution(t) && i + 1 < |t| && p < |t[0].pc|
    ensures Shape(t[i]) && Shape(t[i + 1]) && |t[i].pc| == |t[i + 1].pc| == |t[0].pc|
    ensures Reaped(t[i].pc[p], t[i + 1].pc[p], q) ==>
              q < |t[0].pc| && t[i].st[q] == ZOMBIE && t[i].parent[q] == p && t[i + 1].st[q] == UNUSED
  {
    hide Next, LocksOk, RunOk, ForkOk, CondOk, WaitOk, WokeOk, IntrOk, RefOk;
    ExecutionInv(t, i);
    ExecutionInv(t, i + 1);
    InvShape(t[i]);
    InvShape(t[i + 1]);
    RunWaiter(t, i);
    assert Next(t[i], t[i + 1]);
    if Reaped(t[i].pc[p], t[i + 1].pc[p], q) {
      NextReaped(t[i], t[i + 1], p, q);
      assert Found(t[i].pc[p]) == q;
    }
  }

  lemma NextReaped(s: State, s': State, p: nat, q: nat)
    requires Inv(s) && Next(s, s') && Shape(s') && p < |s.pc| == |s'.pc| && Reaped(s.pc[p], s'.pc[p], q)
    ensures q < |s.st| && s.st[q] == ZOMBIE && s'.st[q] == UNUSED
  {
    hide ForkOk, CondOk, WaitOk, WokeOk, IntrOk, RefOk, RunOk, HeldOk, CtlOk, PcsOk;
    hide MoveStep, WriteStep, NestStep, SchedulerStep, Toggle, RefStep;
    if exists c: nat :: Toggle(s, s', c) {
      ToggleQuiet(s, s');
    } else if exists c: nat, r: nat :: NestStep(s, s', c, r) {
      var c: nat, r: nat :| NestStep(s, s', c, r);
      var l, take := NestIs(s, s', c, r);
    } else if exists c: nat, r: nat :: RefStep(s, s', c, r) {
      RefQuiet(s, s');
    } else {
      var c: nat, r: nat :| Step(s, s', c, r);
      StepReaped(s, s', c, r, p, q);
    }
  }

  lemma StepReaped(s: State, s': State, c: nat, r: nat, p: nat, q: nat)
    requires LocksOk(s) && Step(s, s', c, r) && Shape(s') && p < |s.pc| == |s'.pc| && Reaped(s.pc[p], s'.pc[p], q)
    ensures q < |s.st| && s.st[q] == ZOMBIE && s'.st[q] == UNUSED
  {
    hide HeldOk, CtlOk, PcsOk, Moves, Writes;
    if MoveStep(s, s', c, r) {
      var m :| Moves(s, r, m) && Made(s, s', c, r, m);
      if r == p { MoveFails(s, p, m); }
    } else if WriteStep(s, s', c, r) {
      WriteGoes(s, s', c, r);
      WriteReaped(s, s', c, r);
    } else {
      PickedInTable(s, c, r);
    }
  }

  lemma MoveFails(s: State, p: nat, m: Move)
    requires Shape(s) && p < |s.pc| && Moves(s, p, m)
    ensures m.to != WaitDone(true)
  {
  }

  lemma WriteReaped(s: State, s': State, c: nat, r: nat)
    requires Shape(s) && WriteStep(s, s', c, r)
    ensures s.pc[r].WaitHold? ==> s.pc[r].i < |s.st| == |s'.st| && s.st[s.pc[r].i] == ZOMBIE
                                  && s'.st[s.pc[r].i] == UNUSED
  {
  }

  /** A child is reaped once only: between two reapings of a slot it has been taken by a new fork. */
  lemma ReapedOnce(t: seq<State>, i: nat, j: nat, p: nat, r: nat, q: nat) returns (m: nat)
    requires Execution(t) && i < j && j + 1 < |t| && p < |t[0].pc| && r < |t[0].pc|
    requires p < |t[i].pc| && p < |t[i + 1].pc| && Reaped(t[i].pc[p], t[i + 1].pc[p], q)
    requires r < |t[j].pc| && r < |t[j + 1].pc| && Reaped(t[j].pc[r], t[j + 1].pc[r], q)
    ensures i < m < j && q < |t[m].st| && t[m].st[q] == USED
  {
    hide Execution, Reaped;
    WaitReaps(t, i, p, q);
    WaitReaps(t, j, r, q);
    if forall m: nat :: i + 1 <= m <= j && q < |t[m].st| ==> t[m].st[q] != USED {
      FreeTillUsed(t, i + 1, j, q);
      assert false;
    }
    m :| i + 1 <= m <= j && q < |t[m].st| && t[m].st[q] == USED;
  }

  /** kill leaves nobody asleep: whoever it marks is not asleep at that moment. */
  lemma KillRouses(t: seq<State>, i: nat, q: nat)
    requires Execution(t) && i + 1 < |t| && q < |t[0].pc|
    ensures Shape(t[i]) && Shape(t[i + 1]) && |t[i].pc| == |t[i + 1].pc| == |t[0].pc|
    ensures t[i + 1].killed[q] && !t[i].killed[q] ==> t[i + 1].st[q] != SLEEPING
  {
    hide Next, LocksOk, RunOk, ForkOk, CondOk, WaitOk, WokeOk, IntrOk, RefOk;
    ExecutionInv(t, i);
    ExecutionInv(t, i + 1);
    InvShape(t[i]);
    InvShape(t[i + 1]);
    assert Next(t[i], t[i + 1]);
    NextKills(t[i], t[i + 1], q);
  }

  lemma NextKills(s: State, s': State, q: nat)
    requires Shape(s) && Next(s, s') && Shape(s') && q < |s.pc| == |s'.pc|
    ensures s'.killed[q] && !s.killed[q] ==> s'.st[q] != SLEEPING
  {
    hide MoveStep, WriteStep, NestStep, SchedulerStep, Toggle, RefStep;
    if exists c: nat :: Toggle(s, s', c) {
      ToggleQuiet(s, s');
    } else if exists c: nat, r: nat :: NestStep(s, s', c, r) {
      NestKills(s, s');
    } else if exists c: nat, r: nat :: RefStep(s, s', c, r) {
      RefQuiet(s, s');
    } else {
      var c: nat, r: nat :| Step(s, s', c, r);
      StepKills(s, s', c, r, q);
    }
  }

  lemma NestKills(s: State, s': State)
    requires Shape(s) && exists c: nat, r: nat :: NestStep(s, s', c, r)
    ensures s'.killed == s.killed
  {
  }

  lemma StepKills(s: State, s': State, c: nat, r: nat, q: nat)
    requires Shape(s) && Step(s, s', c, r) && Shape(s') && q < |s.pc| == |s'.pc|
    ensures s'.killed[q] && !s.killed[q] ==> s'.st[q] != SLEEPING
  {
    hide Moves, Writes;
    if WriteStep(s, s', c, r) { WriteKills(s, s', c, r, q); }
  }

  lemma WriteKills(s: State, s': State, c: nat, r: nat, q: nat)
    requires Shape(s) && WriteStep(s, s', c, r) && Shape(s') && q < |s.pc| == |s'.pc|
    ensures s'.killed[q] && !s.killed[q] ==> s'.st[q] != SLEEPING
  {
    if s.pc[r].Idle? { var k: nat :| Unlocks(s, s', c, r, k); }
  }

  ghost predicate HasChild(s: State, p: nat) { exists q: nat :: q < |s.parent| && s.parent[q] == p }

  ghost predicate KidsOk(s: State) {
    Shape(s) && forall p: nat :: p < |s.pc| && SawChild(s.pc[p]) ==> HasChild(s, p)
  }

  /** Nobody but its parent takes a child away. */
  lemma ChildStays(s: State, s': State, p: nat, r: nat)
    requires WaiterOk(s) && Shape(s') && |s'.pc| == |s.pc| && p < |s.pc| && r < |s.pc| && Waiter(s, s', p)
    requires HasChild(s, r) && (r == p ==> s'.parent == s.parent)
    ensures HasChild(s', r)
  {
    hide Taken, Found;
    FoundFacts();
    var q: nat :| q < |s.parent| && s.parent[q] == r;
    assert ParentMoves(s, s', p, q);
    if s.pc[p].ForkFill? { assert Taken(s.pc[p]) == s.pc[p].q; }
    if s.pc[p].ForkParent? { assert Taken(s.pc[p]) == s.pc[p].q; }
    if s.pc[p].WaitHold? { FoundHere(s.pc[p]); }
    assert s'.parent[q] == r;
  }

  lemma FoundHere(pc: Pc)
    requires pc.WaitHold?
    ensures Found(pc) == pc.i
  {
  }

  lemma KidsKeep(s: State, s': State, p: nat)
    requires KidsOk(s) && WaiterOk(s) && Shape(s') && |s'.pc| == |s.pc| && p < |s.pc| && Waiter(s, s', p)
    ensures KidsOk(s')
  {
    hide SawChild, HasChild, Found, Taken;
    NewHasNone();
    forall r: nat | r < |s'.pc| && SawChild(s'.pc[r]) ensures HasChild(s', r) {
      if r == p && 0 <= Found(s.pc[p]) < |s.pc| { IsChild(s, p, Found(s.pc[p])); }
      ChildStays(s, s', p, r);
    }
  }

  lemma NewHasNone()
    ensures !SawChild(Resume(Forkret))
  {
  }

  lemma IsChild(s: State, p: nat, q: nat)
    requires q < |s.parent| && s.parent[q] == p
    ensures HasChild(s, p)
  {
  }

  lemma {:induction false} RunKids(t: seq<State>, i: nat)
    requires Execution(t) && i < |t|
    ensures KidsOk(t[i])
    decreases i
  {
    hide Next, LocksOk, RunOk, ForkOk, CondOk, WaitOk, WokeOk, IntrOk, RefOk, FamilyOk, WaiterOk, Waiter, KidsOk;
    ExecutionInv(t, i);
    if i == 0 {
      InitKids(t[0]);
    } else {
      ExecutionInv(t, i - 1);
      RunKids(t, i - 1);
      RunWaiter(t, i - 1);
      RunFamily(t, i - 1);
      assert Next(t[i - 1], t[i - 1 + 1]);
      InvShape(t[i]);
      InvShape(t[i - 1]);
      FamilyInit(t[i - 1]);
      var p := NextWaiter(t[i - 1], t[i]);
      KidsKeep(t[i - 1], t[i], p);
    }
  }

  lemma InitKids(s: State)
    requires Init(s)
    ensures KidsOk(s)
  {
  }

  /** In every state of every run, whoever sleeps in wait(), or is about to, has a child to wait for. */
  lemma WaitersHaveChildren(s: State, p: nat)
    requires Reachable(s) && p < |s.pc| && SawChild(s.pc[p])
    ensures exists q: nat :: q < |s.parent| && s.parent[q] == p
  {
    hide Init, Next, SawChild;
    var t :| Execution(t) && t[|t| - 1] == s;
    RunKids(t, |t| - 1);
    assert HasChild(s, p);
  }

  // ---- sleep channels ----

  /** In sleep(), past the change of state. */
  predicate InSleep(pc: Pc) { (pc.Sched? || pc.Resume?) && pc.next.Reacquire? }

  ghost predicate ChanOk(s: State) {
    Shape(s) && forall p: nat :: p < |s.pc| && s.chan[p] != NoChan ==> InSleep(s.pc[p]) && !Unborn(s.st[p])
  }

  /** A step leaves p a channel only if p had it and stays in sleep(), or has just gone to sleep. */
  ghost predicate ChanMoves(s: State, s': State, p: nat)
    requires Shape(s) && Shape(s') && |s'.pc| == |s.pc| && p < |s.pc|
  {
    s'.chan[p] != NoChan ==>
      || (InSleep(s'.pc[p]) && s'.st[p] == SLEEPING)
      || (s'.chan[p] == s.chan[p] && (InSleep(s.pc[p]) && !Unborn(s.st[p]) ==> InSleep(s'.pc[p]) && !Unborn(s'.st[p])))
  }

  lemma MoveChans(s: State, s': State, c: nat, r: nat, p: nat)
    requires Shape(s) && MoveStep(s, s', c, r) && Shape(s') && p < |s.pc| == |s'.pc|
    ensures ChanMoves(s, s', p)
  {
    hide Moves;
    var m :| Moves(s, r, m) && Made(s, s', c, r, m);
    MoveTo(s, r, m);
  }

  lemma SchedulerChans(s: State, s': State, c: nat, r: nat, p: nat)
    requires Shape(s) && SchedulerStep(s, s', c, r) && Shape(s') && p < |s.pc| == |s'.pc|
    ensures ChanMoves(s, s', p)
  {
  }

  lemma WriteChans(s: State, s': State, c: nat, r: nat, p: nat)
    requires Shape(s) && WriteStep(s, s', c, r) && s.st[r] == RUNNING && Shape(s') && p < |s.pc| == |s'.pc| && ForkOk(s)
    ensures ChanMoves(s, s', p)
  {
    hide Writes, ForkOk;
    if r == p {
      if s.pc[r].Resume? {
        ResumeChans(s, s', c, r);
      } else if s.pc[r].Idle? {
        IdleChans(s, s', c, r, p);
      } else {
        OwnChans(s, s', c, r);
      }
    } else if SelfWriter(s.pc[r]) {
      WriteSelfFrame(s, s', c, r);
      SelfChans(s, s', c, r, p);
    } else if s.pc[r].ForkSet? {
      ForkTarget(s, r);
      SetChans(s, s', c, r, p);
    } else {
      OtherMoves(s, s', c, r);
      if s.pc[r].ForkFill? { ForkTarget(s, r); }
      var i := OtherStates(s, s', c, r);
      OtherChans(s, s', c, r, p);
    }
  }

  lemma ResumeChans(s: State, s': State, c: nat, p: nat)
    requires Shape(s) && WriteStep(s, s', c, p) && s.pc[p].Resume? && Shape(s') && |s'.pc| == |s.pc|
    ensures s'.chan[p] == NoChan || (s'.chan[p] == s.chan[p] && !InSleep(s.pc[p]))
  {
  }

  lemma IdleChans(s: State, s': State, c: nat, r: nat, p: nat)
    requires Shape(s) && WriteStep(s, s', c, r) && s.pc[r].Idle? && Shape(s') && p < |s'.pc| == |s.pc|
    ensures s'.chan == s.chan && s'.st == s.st
  {
    var k: nat :| Unlocks(s, s', c, r, k);
  }

  lemma OwnChans(s: State, s': State, c: nat, p: nat)
    requires Shape(s) && WriteStep(s, s', c, p) && !s.pc[p].Resume? && !s.pc[p].Idle? && Shape(s') && |s'.pc| == |s.pc|
    ensures !InSleep(s.pc[p])
    ensures s'.chan[p] != NoChan ==> s'.chan[p] == s.chan[p] || (InSleep(s'.pc[p]) && s'.st[p] == SLEEPING)
  {
  }

  lemma SelfChans(s: State, s': State, c: nat, r: nat, p: nat)
    requires Shape(s) && WriteStep(s, s', c, r) && SelfWriter(s.pc[r]) && Shape(s') && p < |s'.pc| == |s.pc| && p != r
    ensures s'.chan[p] == s.chan[p]
  {
    if s.pc[r].Idle? { var k: nat :| Unlocks(s, s', c, r, k); }
  }

  lemma SetChans(s: State, s': State, c: nat, r: nat, p: nat)
    requires Shape(s) && WriteStep(s, s', c, r) && s.pc[r].ForkSet? && Shape(s') && p < |s'.pc| == |s.pc| && p != r
    requires Target(s.pc[r]) < |s.st| && s.st[Target(s.pc[r])] == USED
    ensures s'.chan == s.chan && (s.st[p] == USED || (s'.pc[p] == s.pc[p] && s'.st[p] == s.st[p]))
  {
  }

  lemma OtherChans(s: State, s': State, c: nat, r: nat, p: nat)
    requires Shape(s) && WriteStep(s, s', c, r) && !SelfWriter(s.pc[r]) && !s.pc[r].ForkSet?
    requires Shape(s') && p < |s'.pc| == |s.pc|
    ensures s'.chan[p] == s.chan[p] || s'.chan[p] == NoChan
  {
  }

  lemma NextChans(s: State, s': State, p: nat)
    requires Inv(s) && Next(s, s') && Shape(s') && p < |s.pc| == |s'.pc|
    ensures ChanMoves(s, s', p)
  {
    hide ForkOk, CondOk, WaitOk, WokeOk, IntrOk, RefOk, RunOk, HeldOk, CtlOk, PcsOk;
    hide MoveStep, WriteStep, NestStep, SchedulerStep, Toggle, RefStep;
    if exists c: nat :: Toggle(s, s', c) {
      ToggleQuiet(s, s');
    } else if exists c: nat, r: nat :: NestStep(s, s', c, r) {
      var c: nat, r: nat :| NestStep(s, s', c, r);
      var l, take := NestIs(s, s', c, r);
    } else if exists c: nat, r: nat :: RefStep(s, s', c, r) {
      RefQuiet(s, s');
    } else {
      var c: nat, r: nat :| Step(s, s', c, r);
      if MoveStep(s, s', c, r) {
        MoveChans(s, s', c, r, p);
      } else if WriteStep(s, s', c, r) {
        RunningIfWrites(s, s', c, r);
        WriteChans(s, s', c, r, p);
      } else {
        SchedulerChans(s, s', c, r, p);
      }
    }
  }

  lemma {:induction false} RunChans(t: seq<State>, i: nat)
    requires Execution(t) && i < |t|
    ensures ChanOk(t[i])
    decreases i
  {
    hide Next, LocksOk, RunOk, ForkOk, CondOk, WaitOk, WokeOk, IntrOk, RefOk, InSleep, Unborn;
    ExecutionInv(t, i);
    InvShape(t[i]);
    if i > 0 {
      ExecutionInv(t, i - 1);
      InvShape(t[i - 1]);
      RunChans(t, i - 1);
      assert Next(t[i - 1], t[i - 1 + 1]);
      forall p: nat | p < |t[i].pc| && t[i].chan[p] != NoChan ensures InSleep(t[i].pc[p]) && !Unborn(t[i].st[p]) {
        NextChans(t[i - 1], t[i], p);
        AsleepIsBorn();
      }
    }
  }

  lemma AsleepIsBorn()
    ensures !Unborn(SLEEPING)
  {
  }

  /** In every state of every run, only a process in sleep() has a channel. */
  lemma ChannelOnlyInSleep(s: State, p: nat)
    requires Reachable(s) && p < |s.pc| && s.chan[p] != NoChan
    ensures (s.pc[p].Sched? || s.pc[p].Resume?) && s.pc[p].next.Reacquire? && !Unborn(s.st[p])
  {
    hide Init, Next;
    var t :| Execution(t) && t[|t| - 1] == s;
    RunChans(t, |t| - 1);
  }
}
