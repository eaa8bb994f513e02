/**
 The code of kernel/vm.c and kernel/kalloc.c over the memory of module PageTable. Addresses are
 passed as page numbers except where the source works on bytes.
 */
module Vm {
  import opened PageTable

  const USER_PERM := PTE_W + PTE_X + PTE_R + PTE_U

  function PgUp(sz: nat): nat { (sz + PGSIZE - 1) / PGSIZE }      // PGROUNDUP(sz) / PGSIZE

  /** Entries that translate alike: equal, or both invalid. */
  predicate Alike(d: nat, e: nat) {
    d == e || (!IsValid(d) && !IsValid(e))
  }

  /** Page v of r maps, by a leaf, to a frame owned as exactly that page. */
  ghost predicate Owned(s: State, r: nat, v: nat) {
    var e := Pte(s, r, v);
    IsValid(e) && IsLeaf(e) && Ppn(e) in s.owner && s.owner[Ppn(e)] == User(r, v)
  }

  /** Page v of r maps, by a leaf, to memory that is not its own, as the trampoline does. */
  ghost predicate Borrowed(s: State, r: nat, v: nat) {
    IsValid(Pte(s, r, v)) && IsLeaf(Pte(s, r, v)) && forall f :: f in s.owner ==> s.owner[f] != User(r, v)
  }

  /** uvmunmap finds something to unmap at page v. */
  predicate Present(s: State, r: nat, v: nat) {
    v < VPNS && IsValid(Pte(s, r, v)) && Flags(Pte(s, r, v)) != PTE_V
  }

  /** mappages can map page v. */
  predicate Clear(s: State, r: nat, v: nat) {
    v < VPNS && !IsValid(Pte(s, r, v))
  }

  /** How one frame may have changed between s and t while pages lo..hi of r were added. */
  ghost predicate FrameGrew(s: State, t: State, r: nat, lo: nat, hi: nat, f: nat)
    requires f in s.owner && f in t.owner && f in s.mem && f in t.mem
  {
    if t.owner[f] == s.owner[f] then s.owner[f].User? || s.owner[f].Other? ==> t.mem[f] == s.mem[f]
    else
      && s.owner[f] == Free
      && match t.owner[f] {
        case TableOf(n) => n.r == r
        case User(r', v) => r' == r && lo <= v < hi
        case _ => false
      }
  }

  /** Frames went only from the free list to table pages of r and to its user pages lo..hi. */
  ghost predicate FramesGrew(s: State, t: State, r: nat, lo: nat, hi: nat) {
    && s.owner.Keys == t.owner.Keys == s.mem.Keys == t.mem.Keys
    && (forall f :: f in s.owner ==> FrameGrew(s, t, r, lo, hi, f))
    && (forall n :: n in s.node ==> n in t.node && t.node[n] == s.node[n])
  }

  /**
   From s to t the table at r gained the user pages lo..hi and perhaps table pages, all on frames
   that were free; no other translation of any table changed and no other page was touched.
   */
  ghost predicate Grew(s: State, t: State, r: nat, lo: nat, hi: nat) {
    && FramesGrew(s, t, r, lo, hi)
    && (forall v :: lo <= v < hi ==> Owned(t, r, v))
    && (forall r': nat, v: nat :: !(r' == r && lo <= v < hi) ==> Alike(Pte(s, r', v), Pte(t, r', v)))
  }

  /** From s to t, cnt pages of r from `first` on were mapped to consecutive frames; nothing else. */
  ghost predicate Mapped(s: State, t: State, r: nat, first: nat, cnt: nat, f: nat, perm: nat)
    requires perm < 1024
  {
    && FramesGrew(s, t, r, 0, 0)
    && (forall v :: first <= v < first + cnt ==> Pte(t, r, v) == Entry(f + (v - first), perm))
    && (forall r': nat, v: nat :: !(r' == r && first <= v < first + cnt) ==> Alike(Pte(s, r', v), Pte(t, r', v)))
  }

  /** From s to t the user pages lo..hi of r were unmapped and their frames freed; nothing else. */
  ghost predicate Shrank(s: State, t: State, r: nat, lo: nat, hi: nat) {
    && s.owner.Keys == t.owner.Keys == s.mem.Keys == t.mem.Keys && t.node == s.node
    && (forall f :: f in s.owner ==>
          if s.owner[f].User? && s.owner[f].r == r && lo <= s.owner[f].vpn < hi then t.owner[f] == Free
          else t.owner[f] == s.owner[f] && (s.owner[f].User? || s.owner[f].Other? ==> t.mem[f] == s.mem[f]))
    && (forall r': nat, v: nat :: Pte(t, r', v) == if r' == r && lo <= v < hi then 0 else Pte(s, r', v))
  }

  // ---- facts drawn from the invariant ----

  lemma RootTable(s: State, n: Node)
    requires Inv(s) && n in s.node
    ensures IsTable(s, n) && s.owner.Keys == s.mem.Keys && (n.Root? ==> s.node[n] == n.r)
  {
  }

  lemma FollowLink(s: State, n: Node, i: nat)
    requires Inv(s) && n in s.node && !n.Low? && i < ENTRIES && IsTable(s, n)
    ensures if IsValid(Ptes(s, n)[i])
            then Child(n, i) in s.node && Ppn(Ptes(s, n)[i]) == s.node[Child(n, i)]
            else Child(n, i) !in s.node
  {
    assert LinkOk(s, n, i);
  }

  lemma MappedHasTable(s: State, r: nat, v: nat)
    requires Inv(s) && IsValid(Pte(s, r, v))
    ensures LowOf(r, v) in s.node
  {
  }

  lemma NoMidNoLow(s: State, r: nat, v: nat)
    requires Inv(s)
    ensures Mid(r, v / 512 / 512) !in s.node ==> LowOf(r, v) !in s.node
  {
  }

  lemma FramesGrewTrans(s: State, t: State, u: State, r: nat, lo: nat, mid: nat, hi: nat)
    requires FramesGrew(s, t, r, lo, mid) && FramesGrew(t, u, r, mid, hi) && lo <= mid <= hi
    ensures FramesGrew(s, u, r, lo, hi)
  {
    forall f | f in s.owner ensures FrameGrew(s, u, r, lo, hi, f) {
      assert FrameGrew(s, t, r, lo, mid, f) && FrameGrew(t, u, r, mid, hi, f);
    }
  }

  lemma GrewTrans(s: State, t: State, u: State, r: nat, lo: nat, mid: nat, hi: nat)
    requires Grew(s, t, r, lo, mid) && Grew(t, u, r, mid, hi) && lo <= mid <= hi
    ensures Grew(s, u, r, lo, hi)
  {
    FramesGrewTrans(s, t, u, r, lo, mid, hi);
    forall v | lo <= v < hi ensures Owned(u, r, v) {
      if v < mid { GrewKeepsOwned(t, u, r, mid, hi, r, v); }
    }
    forall r': nat, v: nat | !(r' == r && lo <= v < hi) ensures Alike(Pte(s, r', v), Pte(u, r', v)) {
      assert Alike(Pte(s, r', v), Pte(t, r', v)) && Alike(Pte(t, r', v), Pte(u, r', v));
    }
  }

  lemma GrewRefl(s: State, r: nat, lo: nat)
    requires Inv(s)
    ensures Grew(s, s, r, lo, lo)
  {
  }

  lemma GrewNodes(s: State, t: State, r: nat, lo: nat, hi: nat, n: Node)
    requires Grew(s, t, r, lo, hi)
    ensures n in s.node ==> n in t.node && t.node[n] == s.node[n]
  {
  }

  /** A user page and its contents stay put while other pages are added. */
  lemma GrewKeepsOwned(s: State, t: State, r: nat, lo: nat, hi: nat, r': nat, v: nat)
    requires Grew(s, t, r, lo, hi) && Owned(s, r', v) && !(r' == r && lo <= v < hi)
    ensures Owned(t, r', v) && Pte(t, r', v) == Pte(s, r', v)
    ensures Ppn(Pte(s, r', v)) in s.mem && Ppn(Pte(s, r', v)) in t.mem
    ensures t.mem[Ppn(Pte(s, r', v))] == s.mem[Ppn(Pte(s, r', v))]
  {
    assert Alike(Pte(s, r', v), Pte(t, r', v));
    assert FrameGrew(s, t, r, lo, hi, Ppn(Pte(s, r', v)));
  }

  lemma UnmappedUnowned(s: State, r: nat, v: nat)
    requires Inv(s) && !IsValid(Pte(s, r, v))
    ensures forall f :: f in s.owner ==> s.owner[f] != User(r, v)
  {
  }

  /** One turn of mappages: t is the state after walk. */
  lemma MapOne(s: State, a: State, t: State, r: nat, first: nat, cnt: nat, f: nat, perm: nat)
    requires perm < 1024 && Mapped(s, a, r, first, cnt, f, perm) && Grew(a, t, r, 0, 0) && Inv(t)
    requires LowOf(r, first + cnt) in t.node && !IsValid(Pte(s, r, first + cnt))
    ensures var v := first + cnt;
            && IsTable(t, LowOf(r, v)) && !IsValid(Pte(t, r, v))
            && var u := SetPte(t, LowOf(r, v), v % 512, Entry(f + cnt, perm));
               Inv(u) && Mapped(s, u, r, first, cnt + 1, f, perm)
  {
    hide InvExcept, Mapped, Grew, Pte;
    var v := first + cnt;
    MappedGrew(s, a, t, r, first, cnt, f, perm);
    MappedElsewhere(s, t, r, first, cnt, f, perm, v);
    UnmappedUnowned(t, r, v);
    SetLeafKeeps(t, r, v, Entry(f + cnt, perm));
    MapExtend(s, t, SetPte(t, LowOf(r, v), v % 512, Entry(f + cnt, perm)), r, first, cnt, f, perm, LowOf(r, v));
  }

  lemma MappedElsewhere(s: State, t: State, r: nat, first: nat, cnt: nat, f: nat, perm: nat, v: nat)
    requires perm < 1024 && Mapped(s, t, r, first, cnt, f, perm) && !(first <= v < first + cnt)
    ensures Alike(Pte(s, r, v), Pte(t, r, v))
  {
  }

  lemma MapExtend(s: State, t: State, u: State, r: nat, first: nat, cnt: nat, f: nat, perm: nat, n: Node)
    requires perm < 1024 && Mapped(s, t, r, first, cnt, f, perm) && IsTable(t, n)
    requires u.owner == t.owner && u.node == t.node && u.mem.Keys == t.mem.Keys
    requires forall g :: g in t.mem && g != t.node[n] ==> u.mem[g] == t.mem[g]
    requires forall r': nat, v: nat ::
               Pte(u, r', v) == if r' == r && v == first + cnt then Entry(f + cnt, perm) else Pte(t, r', v)
    ensures Mapped(s, u, r, first, cnt + 1, f, perm)
  {
    forall g | g in s.owner ensures FrameGrew(s, u, r, 0, 0, g) {
      assert FrameGrew(s, t, r, 0, 0, g);
    }
  }

  lemma MappedRefl(s: State, r: nat, first: nat, f: nat, perm: nat)
    requires Inv(s) && perm < 1024
    ensures Mapped(s, s, r, first, 0, f, perm)
  {
  }

  lemma MappedGrew(s: State, t: State, u: State, r: nat, first: nat, cnt: nat, f: nat, perm: nat)
    requires perm < 1024 && Mapped(s, t, r, first, cnt, f, perm) && Grew(t, u, r, 0, 0)
    ensures Mapped(s, u, r, first, cnt, f, perm)
  {
    FramesGrewTrans(s, t, u, r, 0, 0, 0);
    forall v | first <= v < first + cnt ensures Pte(u, r, v) == Entry(f + (v - first), perm) {
      EntryFacts(f + (v - first), perm);
      assert Alike(Pte(t, r, v), Pte(u, r, v));
    }
    forall r': nat, w: nat | !(r' == r && first <= w < first + cnt) ensures Alike(Pte(s, r', w), Pte(u, r', w)) {
      assert Alike(Pte(s, r', w), Pte(t, r', w)) && Alike(Pte(t, r', w), Pte(u, r', w));
    }
  }

  /** walk's allocation, seen from outside. */
  lemma AddNodeGrew(s: State, n: Node, i: nat, lo: nat)
    requires Inv(s) && s.free != [] && n in s.node && IsTable(s, n) && !n.Low? && i < ENTRIES && !IsValid(Ptes(s, n)[i])
    ensures var p := Popped(s); var f := s.free[0];
            && Inv(p) && n in p.node && IsTable(p, n) && Ptes(p, n) == Ptes(s, n) && p.node[n] != f
            && Inv(AddNode(p, n, i, f)) && Grew(s, AddNode(p, n, i, f), n.r, lo, lo)
            && AddNode(p, n, i, f) == State(p.mem[f := ZeroTable()][p.node[n] := Table(Ptes(p, n)[i := Entry(f, 0)])],
                                            p.free, p.node[Child(n, i) := f], p.owner[f := TableOf(Child(n, i))])
  {
    hide InvExcept, LinksOk, FreeOk, UsersOk, Pte;
    var p, f := Popped(s), s.free[0];
    PoppedKeeps(s);
    RootTable(p, n);
    RootTable(s, n);
    FreeHead(s);
    AddNodeInv(p, n, i, f);
    FollowLink(s, n, i);
  }

  lemma FreeHead(s: State)
    requires Inv(s) && s.free != []
    ensures s.free[0] in s.owner && s.owner[s.free[0]] == Free
  {
  }

  lemma TableEntry(s: State, r: nat, v: nat)
    requires Inv(s) && LowOf(r, v) in s.node
    ensures IsTable(s, LowOf(r, v)) && Ptes(s, LowOf(r, v))[v % 512] == Pte(s, r, v)
  {
  }

  lemma OwnedInMem(s: State, r: nat, v: nat)
    requires Inv(s)
    ensures Owned(s, r, v) ==> Ppn(Pte(s, r, v)) in s.mem && LowOf(r, v) in s.node
                               && s.node[LowOf(r, v)] != Ppn(Pte(s, r, v))
  {
    if LowOf(r, v) in s.node { assert IsTable(s, LowOf(r, v)); }
  }

  // ---- unmapping ----

  lemma ShrankRefl(s: State, r: nat, lo: nat)
    requires Inv(s)
    ensures Shrank(s, s, r, lo, lo)
  {
  }

  /** After kfree of the page's frame, if asked for; its entry is still there. */
  function Released(w: State, f: nat, doFree: bool): State
    requires f in w.mem
  {
    if doFree then Pushed(Put(w, f, w.mem[f], Other), f) else w
  }

  lemma ReleasedKeeps(w: State, r: nat, v: nat, doFree: bool)
    requires Inv(w) && IsValid(Pte(w, r, v)) && Ppn(Pte(w, r, v)) in w.mem
    requires if doFree then Owned(w, r, v) else Borrowed(w, r, v)
    ensures var p := Released(w, Ppn(Pte(w, r, v)), doFree);
            && Inv(p) && SameFlat(w, p) && p.node == w.node
            && (forall f :: f in p.owner ==> p.owner[f] != User(r, v))
  {
    if doFree {
      var f := Ppn(Pte(w, r, v));
      assert forall g :: g in w.owner && w.owner[g] == User(r, v) ==> g == f;
      hide InvExcept, Pte;
      WriteKeeps(w, f, w.mem[f], Other);
      PushedKeeps(Put(w, f, w.mem[f], Other), {}, f);
      SameFlatTrans(w, Put(w, f, w.mem[f], Other), Released(w, f, doFree));
    }
  }

  lemma SameFlatTrans(s: State, t: State, u: State)
    requires SameFlat(s, t) && SameFlat(t, u)
    ensures SameFlat(s, u)
  {
  }

  /** One turn of uvmunmap. */
  lemma UnmapOne(s: State, w: State, r: nat, lo: nat, v: nat, doFree: bool)
    requires lo <= v && Shrank(s, w, r, lo, v) && Inv(w) && IsValid(Pte(w, r, v))
    requires doFree ==> Ppn(Pte(w, r, v)) in w.mem
    requires if doFree then Owned(w, r, v) else Borrowed(w, r, v)
    ensures var p := if doFree then Released(w, Ppn(Pte(w, r, v)), true) else w;
            && LowOf(r, v) in p.node && p.node == w.node && IsTable(p, LowOf(r, v)) && Inv(p)
            && var u := SetPte(p, LowOf(r, v), v % 512, 0);
               Inv(u) && Shrank(s, u, r, lo, v + 1)
  {
    hide InvExcept, Pte, Shrank;
    var e := Pte(w, r, v);
    var p := if doFree then Released(w, Ppn(e), true) else w;
    if doFree { ReleasedKeeps(w, r, v, true); }
    assert SameFlat(w, p);
    MappedHasTable(w, r, v);
    SetLeafKeeps(p, r, v, 0);
    var u := SetPte(p, LowOf(r, v), v % 512, 0);
    if doFree {
      OwnedOnce(w, r, v);
      ShrankFreed(s, w, u, r, lo, v, LowOf(r, v));
    } else {
      ShrankKept(s, w, u, r, lo, v, LowOf(r, v));
    }
  }

  lemma OwnedOnce(w: State, r: nat, v: nat)
    requires Inv(w) && Owned(w, r, v)
    ensures forall g :: g in w.owner && w.owner[g] == User(r, v) ==> g == Ppn(Pte(w, r, v))
  {
  }

  lemma ShrankFreed(s: State, w: State, u: State, r: nat, lo: nat, v: nat, n: Node)
    requires lo <= v && Shrank(s, w, r, lo, v) && Owned(w, r, v) && u.node == w.node && IsTable(w, n)
    requires forall g :: g in w.owner && w.owner[g] == User(r, v) ==> g == Ppn(Pte(w, r, v))
    requires u.mem.Keys == w.mem.Keys && u.owner == w.owner[Ppn(Pte(w, r, v)) := Free]
    requires forall g :: g in w.mem && g != Ppn(Pte(w, r, v)) && g != w.node[n] ==> u.mem[g] == w.mem[g]
    requires forall r': nat, v': nat :: Pte(u, r', v') == if r' == r && v' == v then 0 else Pte(w, r', v')
    ensures Shrank(s, u, r, lo, v + 1)
  {
  }

  lemma ShrankKept(s: State, w: State, u: State, r: nat, lo: nat, v: nat, n: Node)
    requires lo <= v && Shrank(s, w, r, lo, v) && u.node == w.node && IsTable(w, n)
    requires forall g :: g in w.owner ==> w.owner[g] != User(r, v)
    requires u.mem.Keys == w.mem.Keys && u.owner == w.owner
    requires forall g :: g in w.mem && g != w.node[n] ==> u.mem[g] == w.mem[g]
    requires forall r': nat, v': nat :: Pte(u, r', v') == if r' == r && v' == v then 0 else Pte(w, r', v')
    ensures Shrank(s, u, r, lo, v + 1)
  {
  }

  /** Pages not yet reached by uvmunmap are as they were. */
  lemma ShrankAhead(s: State, w: State, r: nat, lo: nat, hi: nat, v: nat)
    requires Shrank(s, w, r, lo, hi) && hi <= v
    ensures Pte(w, r, v) == Pte(s, r, v)
    ensures (Owned(s, r, v) ==> Owned(w, r, v)) && (Borrowed(s, r, v) ==> Borrowed(w, r, v))
  {
  }

  lemma GrewElsewhere(s: State, t: State, r: nat, lo: nat, hi: nat, v: nat)
    requires Grew(s, t, r, lo, hi) && !(lo <= v < hi)
    ensures Alike(Pte(s, r, v), Pte(t, r, v))
  {
  }

  lemma AllOwned(s: State, t: State, r: nat, lo: nat, hi: nat)
    requires Grew(s, t, r, lo, hi)
    ensures forall v :: lo <= v < hi ==> Owned(t, r, v)
    ensures forall n :: n in s.node ==> n in t.node
  {
  }

  lemma PgUpOf(a: nat)
    ensures PgUp(a * PGSIZE) == a
  {
  }

  // ---- adding one user page ----

  /** Page v of r is an owned user page with these flags and contents. */
  ghost predicate Holds(s: State, r: nat, v: nat, perm: nat, page: Page)
    requires perm < 1024
  {
    Owned(s, r, v) && Pte(s, r, v) == Entry(Ppn(Pte(s, r, v)), perm) && Ppn(Pte(s, r, v)) in s.mem
        && s.mem[Ppn(Pte(s, r, v))] == page
  }

  /** The frame just taken, filled by the caller. */
  function Prepared(s: State, page: Page): State
    requires s.free != []
  {
    Put(Popped(s), s.free[0], page, Other)
  }

  lemma PreparedKeeps(s: State, page: Page)
    requires Inv(s) && s.free != []
    ensures Inv(Prepared(s, page)) && SameFlat(s, Prepared(s, page)) && Popped(s).owner[s.free[0]] == Other
    ensures s.free[0] in s.owner && s.owner[s.free[0]] == Free && s.owner.Keys == s.mem.Keys
  {
    PoppedKeeps(s);
    assert s.free[0] in s.owner;
    hide InvExcept, Pte;
    WriteKeeps(Popped(s), s.free[0], page, Other);
    SameFlatTrans(s, Popped(s), Prepared(s, page));
  }

  /** mappages succeeded: the frame becomes the user page. */
  lemma PageAdded(s: State, t: State, r: nat, v: nat, perm: nat, page: Page)
    requires perm < 1024 && IsLeaf(perm) && v < VPNS && page.Bytes? && |page.bytes| == PGSIZE
    requires Inv(s) && s.free != [] && Inv(t) && Mapped(Prepared(s, page), t, r, v, 1, s.free[0], perm)
    ensures s.free[0] in t.owner && s.free[0] in t.mem && t.mem[s.free[0]] == page
    ensures var u := Put(t, s.free[0], page, User(r, v));
            Inv(u) && Grew(s, u, r, v, v + 1) && Holds(u, r, v, perm, page)
  {
    hide InvExcept, Pte, Popped, Mapped, Grew, Prepared;
    var f, p := s.free[0], Prepared(s, page);
    PreparedKeeps(s, page);
    PreparedNodes(s, page);
    PreparedFrame(s, page, f);
    MappedParts(p, t, r, v, 1, f, perm, f);
    EntryFacts(f, perm);
    ClaimKeeps(t, f, r, v);
    var u := Put(t, f, page, User(r, v));
    forall g | g in s.owner ensures g in u.owner && g in u.mem && FrameGrew(s, u, r, v, v + 1, g) {
      MappedParts(p, t, r, v, 1, f, perm, g);
      PreparedFrame(s, page, g);
    }
    MappedNodes(p, t, r, v, 1, f, perm);
    assert FramesGrew(s, u, r, v, v + 1);
    forall r': nat, w: nat | !(r' == r && v <= w < v + 1) ensures Alike(Pte(s, r', w), Pte(u, r', w)) {
      MappedAlike(p, t, r, v, 1, f, perm, r', w);
    }
    GrewIntro(s, u, r, v, v + 1);
  }

  lemma GrewIntro(s: State, t: State, r: nat, lo: nat, hi: nat)
    requires FramesGrew(s, t, r, lo, hi) && forall v :: lo <= v < hi ==> Owned(t, r, v)
    requires forall r': nat, v: nat :: !(r' == r && lo <= v < hi) ==> Alike(Pte(s, r', v), Pte(t, r', v))
    ensures Grew(s, t, r, lo, hi)
  {
  }

  lemma MappedParts(s: State, t: State, r: nat, first: nat, cnt: nat, f: nat, perm: nat, g: nat)
    requires perm < 1024 && Mapped(s, t, r, first, cnt, f, perm) && g in s.owner
    ensures g in t.owner && g in s.mem && g in t.mem && FrameGrew(s, t, r, 0, 0, g)
    ensures cnt > 0 ==> Pte(t, r, first) == Entry(f, perm)
  {
    if cnt > 0 { assert Pte(t, r, first) == Entry(f + (first - first), perm); }
  }

  lemma MappedNodes(s: State, t: State, r: nat, first: nat, cnt: nat, f: nat, perm: nat)
    requires perm < 1024 && Mapped(s, t, r, first, cnt, f, perm)
    ensures forall n :: n in s.node ==> n in t.node && t.node[n] == s.node[n]
    ensures s.owner.Keys == t.owner.Keys == s.mem.Keys == t.mem.Keys
  {
  }

  lemma MappedAlike(s: State, t: State, r: nat, first: nat, cnt: nat, f: nat, perm: nat, r': nat, v: nat)
    requires perm < 1024 && Mapped(s, t, r, first, cnt, f, perm) && !(r' == r && first <= v < first + cnt)
    ensures Alike(Pte(s, r', v), Pte(t, r', v))
  {
  }

  lemma PreparedFrame(s: State, page: Page, g: nat)
    requires Inv(s) && s.free != [] && g in s.owner
    ensures var p := Prepared(s, page);
            if g == s.free[0] then p.owner[g] == Other && p.mem[g] == page && s.owner[g] == Free
            else g in s.mem && p.owner[g] == s.owner[g] && p.mem[g] == s.mem[g]
  {
  }

  lemma PreparedNodes(s: State, page: Page)
    requires s.free != []
    ensures Prepared(s, page).node == s.node
    ensures Prepared(s, page).owner.Keys == s.owner.Keys + {s.free[0]}
    ensures Prepared(s, page).mem.Keys == s.mem.Keys + {s.free[0]}
  {
  }

  /** mappages failed: kfree puts everything back except table pages. */
  lemma PageRefused(s: State, t: State, r: nat, v: nat, perm: nat, page: Page)
    requires perm < 1024 && Inv(s) && s.free != [] && Inv(t) && Mapped(Prepared(s, page), t, r, v, 0, s.free[0], perm)
    ensures s.free[0] in t.owner && t.owner[s.free[0]] == Other
    ensures Inv(Pushed(t, s.free[0])) && Grew(s, Pushed(t, s.free[0]), r, v, v)
  {
    hide InvExcept, Pte, Popped, Mapped, Grew, Prepared;
    var f, p := s.free[0], Prepared(s, page);
    PreparedKeeps(s, page);
    PreparedNodes(s, page);
    PreparedFrame(s, page, f);
    MappedParts(p, t, r, v, 0, f, perm, f);
    PushedKeeps(t, {}, f);
    var u := Pushed(t, f);
    forall g | g in s.owner ensures g in u.owner && g in u.mem && FrameGrew(s, u, r, v, v, g) {
      MappedParts(p, t, r, v, 0, f, perm, g);
      PreparedFrame(s, page, g);
    }
    MappedNodes(p, t, r, v, 0, f, perm);
    assert FramesGrew(s, u, r, v, v);
    forall r': nat, w: nat ensures Alike(Pte(s, r', w), Pte(u, r', w)) {
      MappedAlike(p, t, r, v, 0, f, perm, r', w);
    }
    GrewIntro(s, u, r, v, v);
  }

  lemma RangeUnowned(s: State, r: nat, lo: nat, hi: nat)
    requires Inv(s) && forall v :: lo <= v < hi ==> !IsValid(Pte(s, r, v))
    ensures forall f, v :: f in s.owner && lo <= v < hi ==> s.owner[f] != User(r, v)
  {
    hide InvExcept;
    forall f, v: nat | f in s.owner && lo <= v < hi ensures s.owner[f] != User(r, v) {
      UnmappedUnowned(s, r, v);
    }
  }

  lemma HoldsKept(s: State, t: State, r: nat, lo: nat, hi: nat, r': nat, from: nat, perm: nat, page: Page)
    requires perm < 1024 && Grew(s, t, r, lo, hi) && from <= lo
    requires forall v :: from <= v < lo ==> Holds(s, r', v, perm, page)
    ensures forall v :: from <= v < lo ==> Holds(t, r', v, perm, page)
  {
    hide Grew;
    forall v: nat | from <= v < lo ensures Holds(t, r', v, perm, page) {
      assert Holds(s, r', v, perm, page);
      GrewKeepsOwned(s, t, r, lo, hi, r', v);
    }
  }

  /** Undoing a partial growth leaves every translation and every page as at the start. */
  lemma GrewThenShrank(s: State, t: State, u: State, r: nat, lo: nat, hi: nat)
    requires Grew(s, t, r, lo, hi) && Shrank(t, u, r, lo, hi)
    requires forall v :: lo <= v < hi ==> !IsValid(Pte(s, r, v))
    requires forall f, v :: f in s.owner && lo <= v < hi ==> s.owner[f] != User(r, v)
    ensures Grew(s, u, r, lo, lo)
  {
    forall g | g in s.owner ensures FrameGrew(s, u, r, lo, lo, g) {
      assert FrameGrew(s, t, r, lo, hi, g);
    }
    forall r': nat, v: nat ensures Alike(Pte(s, r', v), Pte(u, r', v)) {
      if !(r' == r && lo <= v < hi) { assert Alike(Pte(s, r', v), Pte(t, r', v)); }
    }
  }

  // ---- copying an address space ----

  /** Page v of the child holds what page v of the parent held in s, with the same flags. */
  ghost predicate Copied(s: State, t: State, parent: nat, child: nat, v: nat) {
    var e := Pte(s, parent, v);
    Ppn(e) in s.mem && Holds(t, child, v, Flags(e), s.mem[Ppn(e)])
  }

  lemma OwnedPage(s: State, r: nat, v: nat)
    requires Inv(s) && Owned(s, r, v)
    ensures Ppn(Pte(s, r, v)) in s.mem && s.mem[Ppn(Pte(s, r, v))].Bytes? && |s.mem[Ppn(Pte(s, r, v))].bytes| == PGSIZE
    ensures LowOf(r, v) in s.node && Flags(Pte(s, r, v)) < 1024 && IsLeaf(Flags(Pte(s, r, v)))
  {
    hide Flags;
    MappedHasTable(s, r, v);
    FlagsOfFlags(Pte(s, r, v));
  }

  lemma CopiedKept(s: State, t: State, u: State, parent: nat, child: nat, a: nat)
    requires Grew(t, u, child, a, a + 1) && forall v :: 0 <= v < a ==> Copied(s, t, parent, child, v)
    ensures forall v :: 0 <= v < a ==> Copied(s, u, parent, child, v)
  {
    hide Grew;
    forall v: nat | v < a ensures Copied(s, u, parent, child, v) {
      assert Copied(s, t, parent, child, v);
      GrewKeepsOwned(t, u, child, a, a + 1, child, v);
    }
  }

  // ---- freeing the table pages ----

  /** m hangs below node n, through an entry with index less than k. */
  predicate Below(n: Node, k: int, m: Node) {
    match n
    case Root(r) => !m.Root? && m.r == r && m.i2 < k
    case Mid(r, i2) => m.Low? && m.r == r && m.i2 == i2 && m.i1 < k
    case Low(_, _, _) => false
  }

  ghost function Kids(s: State, n: Node, k: int): set<Node> {
    set m | m in s.node && Below(n, k, m)
  }

  ghost function Tree(s: State, n: Node): set<Node> {
    Kids(s, n, ENTRIES) + {n}
  }

  /** The table pages of the nodes in gone were freed; only the frames in touched changed otherwise. */
  ghost predicate Removed(s: State, t: State, gone: set<Node>, touched: set<nat>) {
    && s.owner.Keys == t.owner.Keys == s.mem.Keys == t.mem.Keys && t.node == s.node - gone
    && (forall f :: f in s.owner ==>
          if s.owner[f].TableOf? && s.owner[f].n in gone then t.owner[f] == Free
          else t.owner[f] == s.owner[f] && (f !in touched ==> t.mem[f] == s.mem[f]))
    && (forall r: nat, v: nat :: Alike(Pte(s, r, v), Pte(t, r, v)))
  }

  /** No leaf is mapped through the table pages of n and below. */
  ghost predicate NoLeaves(s: State, n: Node) {
    forall m, i :: m in Tree(s, n) && m.Low? && IsTable(s, m) && 0 <= i < ENTRIES ==> !IsValid(Ptes(s, m)[i])
  }

  lemma RemovedRefl(s: State, n: Node, x: nat)
    requires Inv(s)
    ensures Removed(s, s, Kids(s, n, 0), {x})
  {
    assert Kids(s, n, 0) == {};
    assert s.node - {} == s.node;
  }

  /** freewalk of n, begun in s, is in state w about to look at entry i of the page pt. */
  ghost predicate Walking(s: State, w: State, n: Node, i: nat, pt: nat) {
    && Inv(w) && Removed(s, w, Kids(s, n, i), {pt}) && n in w.node && w.node[n] == pt && IsTable(w, n)
    && (NoLeaves(w, n) <==> NoLeaves(s, n)) && forall j :: 0 <= j < i && j < ENTRIES ==> !IsValid(Ptes(w, n)[j])
  }

  lemma WalkingStart(s: State, n: Node, pt: nat)
    requires Inv(s) && n in s.node && s.node[n] == pt
    ensures Walking(s, s, n, 0, pt)
  {
    hide InvExcept, Removed, NoLeaves, Kids;
    RootTable(s, n);
    RemovedRefl(s, n, pt);
  }

  /** What freewalk knows of the entry it looks at. */
  lemma WalkingAt(s: State, w: State, n: Node, i: nat, pt: nat)
    requires Walking(s, w, n, i, pt) && i < ENTRIES && LeavesOnly(s, n.r)
    ensures Inv(w) && n in w.node && w.node[n] == pt && IsTable(w, n) && NodesOk(w)
    ensures LeavesOnly(w, n.r) && (NoLeaves(w, n) <==> NoLeaves(s, n))
    ensures IsValid(Ptes(w, n)[i]) ==> (IsLeaf(Ptes(w, n)[i]) <==> n.Low?)
    ensures IsValid(Ptes(w, n)[i]) && !n.Low? ==> Child(n, i) in w.node && Ppn(Ptes(w, n)[i]) == w.node[Child(n, i)]
  {
    hide InvExcept, Removed, NoLeaves, Kids, LeavesOnly, IsLeaf, Ppn, NodesOk;
    LeavesOnlyKept(s, w, Kids(s, n, i), {pt}, n.r);
    LeafIsLowest(w, n, i);
    InvNodes(w);
    if !n.Low? { FollowLink(w, n, i); }
  }

  /** freewalk's loop is past entry i, which had no child. */
  lemma KidsSkip(s: State, n: Node, i: nat)
    requires Inv(s) && n in s.node && i < ENTRIES && (!n.Low? ==> Child(n, i) !in s.node)
    ensures Kids(s, n, i + 1) == Kids(s, n, i)
  {
    forall m | m in s.node && Below(n, i + 1, m) ensures Below(n, i, m) {
      if n.Root? && m.Low? { assert Mid(m.r, m.i2) in s.node; }
    }
  }

  /** Or it had one, whose tree is freed next. */
  lemma KidsNext(s: State, w: State, n: Node, i: nat)
    requires !n.Low? && w.node == s.node - Kids(s, n, i) && Child(n, i) in w.node && NodesOk(s) && n in s.node
    ensures Kids(s, n, i + 1) == Kids(s, n, i) + Tree(w, Child(n, i))
  {
    var c := Child(n, i);
    forall m | m in Kids(s, n, i + 1) ensures m in Kids(s, n, i) + Tree(w, c) {
      if m !in Kids(s, n, i) && m != c { assert m in w.node && Below(c, ENTRIES, m); }
    }
    forall m | m in Tree(w, c) ensures m in Kids(s, n, i + 1) { }
  }

  lemma RemovedTrans(s: State, w: State, t: State, g1: set<Node>, g2: set<Node>, x: nat)
    requires Removed(s, w, g1, {x}) && Removed(w, t, g2, {}) && g2 <= w.node.Keys
    requires forall f :: f in w.owner && w.owner[f].TableOf? ==> w.owner[f].n in w.node
    ensures Removed(s, t, g1 + g2, {x})
  {
    assert s.node - g1 - g2 == s.node - (g1 + g2);
    forall r: nat, v: nat ensures Alike(Pte(s, r, v), Pte(t, r, v)) {
      assert Alike(Pte(s, r, v), Pte(w, r, v)) && Alike(Pte(w, r, v), Pte(t, r, v));
    }
  }

  /** One turn of freewalk: w before the recursive call on child i, x after it. */
  lemma FreewalkTurn(s: State, w: State, x: State, n: Node, i: nat, pt: nat)
    requires Inv(s) && n in s.node && !n.Low? && i < ENTRIES
    requires Walking(s, w, n, i, pt) && Child(n, i) in w.node
    requires InvExcept(x, {Child(n, i)}) && Removed(w, x, Tree(w, Child(n, i)), {}) && NoLeaves(w, Child(n, i))
    ensures n in x.node && x.node[n] == pt && IsTable(w, n) && IsTable(x, n) && Ptes(x, n) == Ptes(w, n)
    ensures var y := SetPte(x, n, i, 0);
            Walking(s, y, n, i + 1, pt)
  {
    hide InvExcept, Pte, Removed, NoLeaves, Kids, Tree, NodesOk;
    var c := Child(n, i);
    TurnFacts(s, w, x, n, i, pt);
    ClearLinkInv(x, n, i);
    LeavesKept(w, x, n, i, pt);
    InvNodes(s);
    InvNodes(w);
    KidsNext(s, w, n, i);
    RemovedTrans(s, w, x, Kids(s, n, i), Tree(w, c), pt);
    RemovedTouch(s, x, SetPte(x, n, i, 0), Kids(s, n, i + 1), pt);
    RootTable(SetPte(x, n, i, 0), n);
  }

  lemma InvNodes(s: State)
    requires Inv(s)
    ensures NodesOk(s) && forall f :: f in s.owner && s.owner[f].TableOf? ==> s.owner[f].n in s.node
  {
  }

  lemma TurnFacts(s: State, w: State, x: State, n: Node, i: nat, pt: nat)
    requires Inv(w) && n in w.node && w.node[n] == pt && !n.Low? && i < ENTRIES && Child(n, i) in w.node
    requires Removed(s, w, Kids(s, n, i), {pt}) && Removed(w, x, Tree(w, Child(n, i)), {})
    ensures w.node == s.node - Kids(s, n, i) && Tree(w, Child(n, i)) <= w.node.Keys
    ensures n in x.node && x.node[n] == pt && IsTable(w, n) && IsTable(x, n) && Ptes(x, n) == Ptes(w, n)
    ensures Child(n, i) !in x.node
  {
    hide InvExcept, Pte;
    assert n !in Tree(w, Child(n, i));
    RootTable(w, n);
  }

  lemma RemovedTouch(s: State, x: State, y: State, gone: set<Node>, pt: nat)
    requires Removed(s, x, gone, {pt}) && y.owner == x.owner && y.node == x.node && y.mem.Keys == x.mem.Keys
    requires (forall f :: f in x.mem && f != pt ==> y.mem[f] == x.mem[f]) && SameFlat(x, y)
    ensures Removed(s, y, gone, {pt})
  {
  }

  /** Every mapping of the table at r is a leaf, as mappages' callers ask for. */
  ghost predicate LeavesOnly(s: State, r: nat) {
    forall v: nat :: IsValid(Pte(s, r, v)) ==> IsLeaf(Pte(s, r, v))
  }

  lemma LeavesOnlyKept(s: State, t: State, gone: set<Node>, touched: set<nat>, r: nat)
    requires LeavesOnly(s, r) && Removed(s, t, gone, touched)
    ensures LeavesOnly(t, r)
  {
    forall v: nat | IsValid(Pte(t, r, v)) ensures IsLeaf(Pte(t, r, v)) { assert Alike(Pte(s, r, v), Pte(t, r, v)); }
  }

  /** A valid entry is a leaf in a lowest table page and a pointer in the others. */
  lemma LeafIsLowest(w: State, n: Node, i: nat)
    requires Inv(w) && n in w.node && i < ENTRIES && LeavesOnly(w, n.r)
    ensures IsTable(w, n) && (IsValid(Ptes(w, n)[i]) ==> (IsLeaf(Ptes(w, n)[i]) <==> n.Low?))
  {
    hide Flags;
    assert IsTable(w, n);
    if !n.Low? {
      assert LinkOk(w, n, i);
      if IsValid(Ptes(w, n)[i]) { PointerNotLeaf(w.node[Child(n, i)]); }
    } else {
      var v := (n.i2 * 512 + n.i1) * 512 + i;
      PageNumber(n.r, n.i2, n.i1, i);
      TableEntry(w, n.r, v);
    }
  }

  /** freewalk meets a leaf: there was one to meet. */
  lemma LeafMet(w: State, n: Node, i: nat)
    requires IsTable(w, n) && n.Low? && i < ENTRIES && IsValid(Ptes(w, n)[i])
    ensures !NoLeaves(w, n)
  {
    assert n in Tree(w, n);
  }

  /** A table page without valid entries has nothing below it. */
  lemma EmptyPage(w: State, n: Node)
    requires Inv(w) && n in w.node && IsTable(w, n) && forall i :: 0 <= i < ENTRIES ==> !IsValid(Ptes(w, n)[i])
    ensures NoLeaves(w, n)
  {
    forall m, i | m in Tree(w, n) && m.Low? && IsTable(w, m) && 0 <= i < ENTRIES ensures !IsValid(Ptes(w, m)[i]) {
      if m != n {
        NoChildren(w, n, m);
        if n.Root? { NoChildren(w, n, Mid(m.r, m.i2)); }
        assert false;
      }
    }
  }

  lemma PointerNotLeaf(f: nat)
    ensures !IsLeaf(Entry(f, 0))
  {
    EntryFacts(f, 0);
  }

  lemma LeavesBelow(w: State, n: Node, i: nat)
    requires NoLeaves(w, n) && !n.Low? && Child(n, i) in w.node && i < ENTRIES && NodesOk(w)
    ensures NoLeaves(w, Child(n, i))
  {
    assert Tree(w, Child(n, i)) <= Tree(w, n);
  }

  lemma LeavesKept(w: State, x: State, n: Node, i: nat, pt: nat)
    requires !n.Low? && i < ENTRIES && Inv(w) && NoLeaves(w, Child(n, i)) && n in w.node && w.node[n] == pt
    requires Removed(w, x, Tree(w, Child(n, i)), {}) && IsTable(x, n) && x.node[n] == pt
    ensures NoLeaves(SetPte(x, n, i, 0), n) <==> NoLeaves(w, n)
  {
    hide Pte, InvExcept, NoLeaves, Removed;
    var y := SetPte(x, n, i, 0);
    if NoLeaves(w, n) { LeavesForth(w, x, n, i); }
    if NoLeaves(y, n) { LeavesBack(w, x, n, i); }
  }

  lemma LeavesForth(w: State, x: State, n: Node, i: nat)
    requires Inv(w) && NoLeaves(w, n) && n in w.node && !n.Low? && i < ENTRIES
    requires Removed(w, x, Tree(w, Child(n, i)), {}) && IsTable(x, n) && x.node[n] == w.node[n]
    ensures NoLeaves(SetPte(x, n, i, 0), n)
  {
    hide Pte, InvExcept, Removed, Tree, IsValid, SetPte;
    var y := SetPte(x, n, i, 0);
    forall m, j | m in Tree(y, n) && m.Low? && IsTable(y, m) && 0 <= j < ENTRIES ensures !IsValid(Ptes(y, m)[j]) {
      TreeWithout(w, x, n, i, m);
      SameLowPage(w, x, n, i, m);
    }
  }

  lemma LeavesBack(w: State, x: State, n: Node, i: nat)
    requires !n.Low? && i < ENTRIES && Inv(w) && NoLeaves(w, Child(n, i)) && n in w.node
    requires Removed(w, x, Tree(w, Child(n, i)), {}) && IsTable(x, n) && x.node[n] == w.node[n]
    requires NoLeaves(SetPte(x, n, i, 0), n)
    ensures NoLeaves(w, n)
  {
    hide Pte, InvExcept, Removed, Tree, IsValid, SetPte;
    forall m, j | m in Tree(w, n) && m.Low? && IsTable(w, m) && 0 <= j < ENTRIES ensures !IsValid(Ptes(w, m)[j]) {
      if m !in Tree(w, Child(n, i)) {
        TreeWithout(w, x, n, i, m);
        SameLowPage(w, x, n, i, m);
      }
    }
  }

  /** The tree of n without that of its child i. */
  lemma TreeWithout(w: State, x: State, n: Node, i: nat, m: Node)
    requires !n.Low? && i < ENTRIES && n in w.node && Removed(w, x, Tree(w, Child(n, i)), {}) && IsTable(x, n)
    ensures m in Tree(SetPte(x, n, i, 0), n) <==> m in Tree(w, n) && m !in Tree(w, Child(n, i))
  {
    hide Pte;
    assert n !in Tree(w, Child(n, i));
  }

  /** A lowest table page outside that tree is as it was. */
  lemma SameLowPage(w: State, x: State, n: Node, i: nat, m: Node)
    requires !n.Low? && i < ENTRIES && Inv(w) && n in w.node && Removed(w, x, Tree(w, Child(n, i)), {}) && IsTable(x, n)
    requires x.node[n] == w.node[n] && m.Low? && m in Tree(w, n) && m !in Tree(w, Child(n, i))
    ensures IsTable(w, m) && IsTable(SetPte(x, n, i, 0), m) && Ptes(SetPte(x, n, i, 0), m) == Ptes(w, m)
  {
    hide Pte;
    assert IsTable(w, m) && IsTable(w, n);
    assert w.node[m] != w.node[n];
  }

  lemma TurnSkip(s: State, w: State, n: Node, i: nat, pt: nat)
    requires Inv(s) && n in s.node && Walking(s, w, n, i, pt) && i < ENTRIES && !IsValid(Ptes(w, n)[i])
    ensures Walking(s, w, n, i + 1, pt)
  {
    hide NoLeaves;
    if !n.Low? {
      assert LinkOk(w, n, i);
      assert Child(n, i) !in Kids(s, n, i);
    }
    KidsSkip(s, n, i);
  }

  /** The end of freewalk: every entry is gone, so the page itself can go. */
  lemma FreewalkEnd(s: State, w: State, n: Node, pt: nat)
    requires Inv(s) && n in s.node && s.node[n] == pt
    requires Walking(s, w, n, ENTRIES, pt)
    ensures NoLeaves(s, n) && n in w.node && w.node[n] == pt && InvExcept(Detach(w, n), {n})
    ensures pt in Detach(w, n).owner && Detach(w, n).owner[pt] == Other
    ensures InvExcept(Pushed(Detach(w, n), pt), {n}) && Removed(s, Pushed(Detach(w, n), pt), Tree(s, n), {})
  {
    hide InvExcept, Pte, Removed, NoLeaves;
    EmptyPage(w, n);
    DetachInv(w, n);
    PushedKeeps(Detach(w, n), {n}, pt);
    RootTable(s, n);
    TableOnce(s, n);
    RemovedLast(s, w, Pushed(Detach(w, n), pt), n, pt);
  }

  lemma TableOnce(s: State, n: Node)
    requires Inv(s) && n in s.node
    ensures forall f :: f in s.owner && s.owner[f] == TableOf(n) ==> f == s.node[n]
  {
  }

  lemma RemovedLast(s: State, w: State, t: State, n: Node, pt: nat)
    requires IsTable(s, n) && s.node[n] == pt && IsTable(w, n) && w.node[n] == pt
    requires Removed(s, w, Kids(s, n, ENTRIES), {pt})
    requires t.owner == w.owner[pt := Other][pt := Free] && t.node == w.node - {n} && t.mem.Keys == w.mem.Keys
    requires forall f :: f in w.mem && f != pt ==> t.mem[f] == w.mem[f]
    requires forall r, v :: IsValid(Pte(w, r, v)) || IsValid(Pte(t, r, v)) ==> Pte(t, r, v) == Pte(w, r, v)
    requires forall f :: f in s.owner && s.owner[f] == TableOf(n) ==> f == pt
    ensures Removed(s, t, Tree(s, n), {})
  {
    assert s.node - Kids(s, n, ENTRIES) - {n} == s.node - Tree(s, n);
    forall r: nat, v: nat ensures Alike(Pte(s, r, v), Pte(t, r, v)) {
      assert Alike(Pte(s, r, v), Pte(w, r, v));
    }
  }

  // ---- whole address spaces ----

  /** f belongs to the address space at r, as a table page or as a user page. */
  predicate PartOf(o: Owner, r: nat) {
    (o.TableOf? && o.n.r == r) || (o.User? && o.r == r)
  }

  /**
   The address space at r is gone: each of its frames is free, and no other frame changed owner or
   contents, nor any other table its translations.
   */
  ghost predicate Reclaimed(s: State, t: State, r: nat) {
    && s.owner.Keys == t.owner.Keys == s.mem.Keys == t.mem.Keys
    && (forall f :: f in s.owner ==>
          if PartOf(s.owner[f], r) then t.owner[f] == Free
          else t.owner[f] == s.owner[f] && (s.owner[f].User? || s.owner[f].Other? ==> t.mem[f] == s.mem[f]))
    && (forall n :: n in t.node <==> n in s.node && n.r != r) && (forall n :: n in t.node ==> t.node[n] == s.node[n])
    && (forall r': nat, v: nat :: r' != r ==> Alike(Pte(s, r', v), Pte(t, r', v)))
  }

  lemma EmptyNoLeaves(s: State, r: nat)
    requires Inv(s) && forall v: nat :: !IsValid(Pte(s, r, v))
    ensures NoLeaves(s, Root(r))
  {
    hide InvExcept, Pte;
    InvNodes(s);
    forall m, i | m in Tree(s, Root(r)) && m.Low? && IsTable(s, m) && 0 <= i < ENTRIES ensures !IsValid(Ptes(s, m)[i]) {
      var v := (m.i2 * 512 + m.i1) * 512 + i;
      PageNumber(r, m.i2, m.i1, i);
      TableEntry(s, r, v);
      assert !IsValid(Pte(s, r, v));
    }
  }

  lemma LeavesSeen(s: State, r: nat)
    requires Inv(s) && Root(r) in s.node && NoLeaves(s, Root(r))
    ensures forall v: nat :: !IsValid(Pte(s, r, v))
  {
    hide InvExcept, NoLeaves;
    forall v: nat ensures !IsValid(Pte(s, r, v)) {
      if IsValid(Pte(s, r, v)) {
        MappedHasTable(s, r, v);
        TableEntry(s, r, v);
        TreeIsAll(s, r);
        LeafAt(s, Root(r), LowOf(r, v), v % 512);
        assert false;
      }
    }
  }

  lemma LeafAt(s: State, n: Node, m: Node, i: nat)
    requires NoLeaves(s, n) && m in Tree(s, n) && m.Low? && IsTable(s, m) && i < ENTRIES
    ensures !IsValid(Ptes(s, m)[i])
  {
  }

  lemma PageNumber(r: nat, i2: nat, i1: nat, i: nat)
    requires i1 < 512 && i < 512
    ensures var v := (i2 * 512 + i1) * 512 + i;
            LowOf(r, v) == Low(r, i2, i1) && v % 512 == i
  {
  }

  lemma ShrankThenRemoved(s: State, w: State, t: State, r: nat, n: nat)
    requires Inv(s) && Inv(w) && Shrank(s, w, r, 0, n) && Removed(w, t, Tree(w, Root(r)), {}) && Root(r) in s.node
    requires forall v: nat :: v >= n ==> !IsValid(Pte(s, r, v))
    ensures Reclaimed(s, t, r)
  {
    TreeIsAll(w, r);
    forall f | f in s.owner
      ensures if PartOf(s.owner[f], r) then t.owner[f] == Free
              else t.owner[f] == s.owner[f] && (s.owner[f].User? || s.owner[f].Other? ==> t.mem[f] == s.mem[f])
    {
      if s.owner[f].User? && s.owner[f].r == r { UnmappedUnowned2(s, r, s.owner[f].vpn, f); }
      if w.owner[f].TableOf? { TableListed(w, f); }
    }
    forall r': nat, v: nat | r' != r ensures Alike(Pte(s, r', v), Pte(t, r', v)) {
      assert Alike(Pte(w, r', v), Pte(t, r', v));
    }
  }

  lemma UnmappedUnowned2(s: State, r: nat, v: nat, f: nat)
    requires Inv(s) && f in s.owner && s.owner[f] == User(r, v)
    ensures IsValid(Pte(s, r, v))
  {
  }

  lemma TableListed(s: State, f: nat)
    requires Inv(s) && f in s.owner && s.owner[f].TableOf?
    ensures s.owner[f].n in s.node
  {
  }

  lemma TreeIsAll(s: State, r: nat)
    requires Inv(s) && Root(r) in s.node
    ensures forall n :: n in Tree(s, Root(r)) <==> n in s.node && n.r == r
  {
    forall n | n in s.node && n.r == r ensures n in Tree(s, Root(r)) {
      if n.Low? { assert Mid(n.r, n.i2) in s.node; }
    }
  }

  // ---- user memory as bytes ----

  /** The user page v of r can be reached by walkaddr. */
  predicate Reachable(s: State, r: nat, v: nat) {
    v < VPNS && IsValid(Pte(s, r, v)) && IsUser(Pte(s, r, v))
  }

  /** User code can read, write and execute page v of r. */
  predicate Open(s: State, r: nat, v: nat) {
    Reachable(s, r, v) && IsReadable(Pte(s, r, v)) && IsWritable(Pte(s, r, v)) && IsExecutable(Pte(s, r, v))
  }

  /** Every page of r open to user code is one of its own, as in any process. */
  ghost predicate OwnsUserPages(s: State, r: nat) {
    forall v: nat :: Reachable(s, r, v) ==> Owned(s, r, v)
  }

  /** The byte at virtual address va of r. */
  function ByteAt(s: State, r: nat, va: nat): Byte {
    var f := Ppn(Pte(s, r, va / PGSIZE));
    if f in s.mem && s.mem[f].Bytes? && |s.mem[f].bytes| == PGSIZE then s.mem[f].bytes[va % PGSIZE] else 0
  }

  /** From s to t the bytes of src were stored at dst in the address space at r; nothing else. */
  ghost predicate Stored(s: State, t: State, r: nat, dst: nat, src: seq<Byte>) {
    && t == s.(mem := t.mem) && t.mem.Keys == s.mem.Keys && SameFlat(s, t)
    && (forall f :: f in s.owner && f in s.mem && !s.owner[f].User? ==> t.mem[f] == s.mem[f])
    && (forall r': nat, va: nat :: Owned(s, r', va / PGSIZE) ==>
          ByteAt(t, r', va) == if r' == r && dst <= va < dst + |src| then src[va - dst] else ByteAt(s, r', va))
  }

  lemma StoredRefl(s: State, r: nat, dst: nat)
    ensures Stored(s, s, r, dst, [])
  {
  }

  function Splice(b: seq<Byte>, at: nat, src: seq<Byte>): (r: seq<Byte>)
    requires at + |src| <= |b|
    ensures |r| == |b| && forall i :: 0 <= i < |b| ==> r[i] == if at <= i < at + |src| then src[i - at] else b[i]
  {
    b[..at] + src + b[at + |src|..]
  }

  lemma StoredFlat(s: State, w: State, r: nat, dst: nat, src: seq<Byte>, v: nat)
    requires Stored(s, w, r, dst, src)
    ensures w.node == s.node && (Reachable(w, r, v) <==> Reachable(s, r, v))
  {
  }

  lemma StoredOwned(s: State, w: State, r: nat, dst: nat, src: seq<Byte>, v: nat)
    requires Stored(s, w, r, dst, src) && OwnsUserPages(s, r) && Reachable(s, r, v)
    ensures Owned(s, r, v) && Owned(w, r, v)
  {
  }

  lemma StoredSpace(s: State, w: State, r: nat, dst: nat, src: seq<Byte>)
    requires Stored(s, w, r, dst, src) && OwnsUserPages(s, r)
    ensures OwnsUserPages(w, r) && forall v: nat :: Reachable(w, r, v) <==> Reachable(s, r, v)
  {
    forall v: nat | Reachable(w, r, v) ensures Owned(w, r, v) {
      assert Reachable(s, r, v);
    }
  }

  /** The n bytes from va on lie in one page. */
  lemma SamePage(va: nat, n: nat)
    requires va % PGSIZE + n <= PGSIZE
    ensures forall a :: va <= a < va + n ==> a / PGSIZE == va / PGSIZE && a % PGSIZE == va % PGSIZE + (a - va)
  {
  }

  /** One page's worth of copyout, into the frame f of the page. */
  lemma StoreOne(s: State, w: State, r: nat, dst: nat, done: seq<Byte>, more: seq<Byte>, f: nat)
    requires Inv(w) && Stored(s, w, r, dst, done) && Owned(s, r, (dst + |done|) / PGSIZE)
    requires (dst + |done|) % PGSIZE + |more| <= PGSIZE && f == Ppn(Pte(w, r, (dst + |done|) / PGSIZE))
    requires f in w.mem && f in w.owner && w.mem[f].Bytes? && |w.mem[f].bytes| == PGSIZE
    ensures var t := Put(w, f, Bytes(Splice(w.mem[f].bytes, (dst + |done|) % PGSIZE, more)), w.owner[f]);
            Inv(t) && Stored(s, t, r, dst, done + more)
  {
    hide InvExcept, Pte;
    var va := dst + |done|;
    var v := va / PGSIZE;
    var page := Bytes(Splice(w.mem[f].bytes, va % PGSIZE, more));
    var t := Put(w, f, page, w.owner[f]);
    WriteKeeps(w, f, page, w.owner[f]);
    assert w.owner[f := w.owner[f]] == w.owner;
    forall r': nat, a: nat | Owned(s, r', a / PGSIZE)
      ensures ByteAt(t, r', a) ==
              if r' == r && dst <= a < dst + |done + more| then (done + more)[a - dst] else ByteAt(s, r', a)
    {
      OwnedPage(w, r', a / PGSIZE);
      if r' == r && a / PGSIZE == v {
        assert a % PGSIZE - va % PGSIZE == a - va;
      } else {
        assert Ppn(Pte(w, r', a / PGSIZE)) != f;
      }
    }
    assert SameFlat(s, t);
  }

  const TRAMPOLINE := VPNS - 1
  const TRAPFRAME := VPNS - 2

  /** A process's page table: n user pages of its own; trampoline and trapframe, closed to user code; nothing else. */
  ghost predicate ProcessSpace(s: State, r: nat, n: nat) {
    && n <= TRAPFRAME
    && (forall v :: 0 <= v < n ==> Owned(s, r, v))
    && Borrowed(s, r, TRAMPOLINE) && Borrowed(s, r, TRAPFRAME)
    && !IsUser(Pte(s, r, TRAMPOLINE)) && !IsUser(Pte(s, r, TRAPFRAME))
    && (forall v: nat :: n <= v && v != TRAMPOLINE && v != TRAPFRAME ==> !IsValid(Pte(s, r, v)))
  }

  /**
   The same, with pages 0 to n - 1 and no others open to user code, except those in g: the pages that
   exec closes below a stack.
   */
  ghost predicate OpenSpace(s: State, r: nat, n: nat, g: set<nat>) {
    && ProcessSpace(s, r, n)
    && (forall v: nat :: Reachable(s, r, v) ==> v < n && v !in g)
    && (forall v: nat :: v < n && v !in g ==> Open(s, r, v))
  }

  /** What uvmalloc's permissions allow. */
  lemma UserEntryOpen(s: State, r: nat, v: nat, page: Page)
    requires Holds(s, r, v, USER_PERM, page) && v < VPNS
    ensures Open(s, r, v)
  {
    hide Pte;
    EntryFacts(Ppn(Pte(s, r, v)), USER_PERM);
  }

  lemma AlikeOpen(s: State, t: State, r: nat, v: nat)
    requires Alike(Pte(s, r, v), Pte(t, r, v))
    ensures (Reachable(s, r, v) <==> Reachable(t, r, v)) && (Open(s, r, v) <==> Open(t, r, v))
  {
    hide Pte;
  }

  lemma OpenGrew(s: State, t: State, r: nat, n: nat, m: nat, g: set<nat>)
    requires OpenSpace(s, r, n, g) && (forall v :: v in g ==> v < n) && Grew(s, t, r, n, m)
    requires n <= m && ProcessSpace(t, r, m) && forall v: nat :: n <= v < m ==> Open(t, r, v)
    ensures OpenSpace(t, r, m, g)
  {
    hide Pte, FramesGrew, Open, Reachable, ProcessSpace;
    forall v: nat ensures (Reachable(t, r, v) ==> v < m && v !in g) && (v < m && v !in g ==> Open(t, r, v)) {
      if n <= v < m { OpenReach(t, r, v); } else { AlikeOpen(s, t, r, v); }
    }
  }

  lemma OpenReach(s: State, r: nat, v: nat)
    ensures Open(s, r, v) ==> Reachable(s, r, v)
  {
  }

  lemma OpenShrank(s: State, t: State, r: nat, n: nat, m: nat, g: set<nat>)
    requires OpenSpace(s, r, n, g) && m <= n && Shrank(s, t, r, m, n)
    ensures OpenSpace(t, r, m, g)
  {
    hide Pte, Open, Reachable, ProcessSpace, Shrank;
    SpaceShrank(s, t, r, n, m);
    forall v: nat ensures (Reachable(t, r, v) ==> v < m && v !in g) && (v < m && v !in g ==> Open(t, r, v)) {
      if m <= v < n {
        ShrankGone(s, t, r, m, n, v);
        GoneUnreached(t, r, v);
      } else {
        ShrankAhead2(s, t, r, m, n, v);
        AlikeOpen(s, t, r, v);
      }
    }
  }

  lemma GoneUnreached(s: State, r: nat, v: nat)
    requires !IsValid(Pte(s, r, v))
    ensures !Reachable(s, r, v)
  {
  }

  /** A process with no user pages is open nowhere. */
  lemma EmptyOpen(s: State, r: nat)
    requires ProcessSpace(s, r, 0)
    ensures OpenSpace(s, r, 0, {})
  {
    hide Pte, Owned;
    forall v: nat ensures !Reachable(s, r, v) { }
  }

  /** In a process of n open pages, copyin and copyout reach exactly the addresses below n pages. */
  lemma OpenRange(s: State, r: nat, n: nat, va: nat, len: nat)
    requires OpenSpace(s, r, n, {})
    ensures (forall a :: va <= a < va + len ==> Reachable(s, r, a / PGSIZE)) <==> len == 0 || va + len <= n * PGSIZE
  {
    hide Pte, Reachable, Open, ProcessSpace;
    forall v: nat ensures Reachable(s, r, v) <==> v < n { OpenReach(s, r, v); }
    if len > 0 && va + len > n * PGSIZE {
      var a := va + len - 1;
      assert !Reachable(s, r, a / PGSIZE);
    }
  }

  lemma ShrankAhead2(s: State, w: State, r: nat, lo: nat, hi: nat, v: nat)
    requires Shrank(s, w, r, lo, hi) && !(lo <= v < hi)
    ensures Pte(w, r, v) == Pte(s, r, v) && (Owned(s, r, v) ==> Owned(w, r, v))
    ensures (Borrowed(s, r, v) ==> Borrowed(w, r, v))
    ensures w.node == s.node
  {
  }

  /** Growing a process from n to m pages leaves it a process, of m pages. */
  lemma SpaceGrew(s: State, t: State, r: nat, n: nat, m: nat)
    requires ProcessSpace(s, r, n) && Grew(s, t, r, n, m) && n <= m <= TRAPFRAME
    ensures ProcessSpace(t, r, m)
  {
    hide Pte, FramesGrew, IsUser, Owned;
    GrewKeepsBorrowed(s, t, r, n, m, r, TRAMPOLINE);
    GrewKeepsBorrowed(s, t, r, n, m, r, TRAPFRAME);
    forall v: nat | v < m ensures Owned(t, r, v) {
      if v < n { GrewKeepsOwned(s, t, r, n, m, r, v); }
    }
    forall v: nat | m <= v && v != TRAMPOLINE && v != TRAPFRAME ensures !IsValid(Pte(t, r, v)) {
      assert Alike(Pte(s, r, v), Pte(t, r, v));
    }
  }

  lemma GrewKeepsBorrowed(s: State, t: State, r: nat, lo: nat, hi: nat, r': nat, v: nat)
    requires Grew(s, t, r, lo, hi) && Borrowed(s, r', v) && !(r' == r && lo <= v < hi)
    ensures Borrowed(t, r', v) && Pte(t, r', v) == Pte(s, r', v)
  {
    hide Pte;
    assert Alike(Pte(s, r', v), Pte(t, r', v));
    forall f | f in t.owner ensures t.owner[f] != User(r', v) { assert FrameGrew(s, t, r, lo, hi, f); }
  }

  /** Shrinking it to m pages likewise. */
  lemma SpaceShrank(s: State, t: State, r: nat, n: nat, m: nat)
    requires ProcessSpace(s, r, n) && Shrank(s, t, r, m, n) && m <= n
    ensures ProcessSpace(t, r, m)
  {
    hide Pte, Shrank, IsUser, Owned, Borrowed;
    forall v: nat
      ensures if m <= v < n then !IsValid(Pte(t, r, v))
              else Pte(t, r, v) == Pte(s, r, v) && (Owned(s, r, v) ==> Owned(t, r, v))
                   && (Borrowed(s, r, v) ==> Borrowed(t, r, v))
    {
      if m <= v < n { ShrankGone(s, t, r, m, n, v); } else { ShrankAhead2(s, t, r, m, n, v); }
    }
  }

  /** The address spaces of all processes but the one at r are as they were. */
  ghost predicate SpacesKept(s: State, t: State, r: nat) {
    && (forall r': nat, n: nat :: r' != r && ProcessSpace(s, r', n) ==> ProcessSpace(t, r', n))
    && (forall r': nat, n: nat, g: set<nat> :: r' != r && OpenSpace(s, r', n, g) ==> OpenSpace(t, r', n, g))
  }

  /** Page v of r' maps as before, to a frame with the same owner. */
  ghost predicate PageKept(s: State, t: State, r': nat, v: nat) {
    && Alike(Pte(s, r', v), Pte(t, r', v))
    && (Owned(s, r', v) ==> Owned(t, r', v)) && (Borrowed(s, r', v) ==> Borrowed(t, r', v))
  }

  ghost predicate PagesKept(s: State, t: State, r': nat) {
    forall v: nat :: PageKept(s, t, r', v)
  }

  lemma PagesKeepSpace(s: State, t: State, r': nat, n: nat)
    requires PagesKept(s, t, r') && ProcessSpace(s, r', n)
    ensures ProcessSpace(t, r', n)
  {
    hide Pte, IsUser;
    assert PageKept(s, t, r', TRAMPOLINE) && PageKept(s, t, r', TRAPFRAME);
    forall v: nat ensures Alike(Pte(s, r', v), Pte(t, r', v)) && (Owned(s, r', v) ==> Owned(t, r', v)) {
      assert PageKept(s, t, r', v);
    }
  }

  lemma SpacesIntro(s: State, t: State, r: nat)
    requires forall r': nat :: r' != r ==> PagesKept(s, t, r')
    ensures SpacesKept(s, t, r)
  {
    hide ProcessSpace, PagesKept, OpenSpace;
    forall r': nat, n: nat | r' != r && ProcessSpace(s, r', n) ensures ProcessSpace(t, r', n) {
      PagesKeepSpace(s, t, r', n);
    }
    forall r': nat, n: nat, g: set<nat> | r' != r && OpenSpace(s, r', n, g) ensures OpenSpace(t, r', n, g) {
      PagesKeepOpen(s, t, r', n, g);
    }
  }

  lemma PagesKeepOpen(s: State, t: State, r': nat, n: nat, g: set<nat>)
    requires PagesKept(s, t, r') && OpenSpace(s, r', n, g)
    ensures OpenSpace(t, r', n, g)
  {
    hide ProcessSpace, Pte, Reachable, Open, Owned, Borrowed;
    PagesKeepSpace(s, t, r', n);
    forall v: nat ensures (Reachable(t, r', v) <==> Reachable(s, r', v)) && (Open(t, r', v) <==> Open(s, r', v)) {
      assert PageKept(s, t, r', v);
      AlikeOpen(s, t, r', v);
    }
  }

  lemma SpacesGrew(s: State, t: State, r: nat, lo: nat, hi: nat)
    requires Grew(s, t, r, lo, hi)
    ensures SpacesKept(s, t, r)
  {
    hide Pte, SpacesKept, FramesGrew, Owned, Borrowed;
    forall r': nat | r' != r ensures PagesKept(s, t, r') {
      forall v: nat ensures PageKept(s, t, r', v) {
        if Owned(s, r', v) { GrewKeepsOwned(s, t, r, lo, hi, r', v); }
        if Borrowed(s, r', v) { GrewKeepsBorrowed(s, t, r, lo, hi, r', v); }
      }
    }
    SpacesIntro(s, t, r);
  }

  lemma SpacesShrank(s: State, t: State, r: nat, lo: nat, hi: nat)
    requires Shrank(s, t, r, lo, hi)
    ensures SpacesKept(s, t, r)
  {
    hide Pte, SpacesKept;
    forall r': nat | r' != r ensures PagesKept(s, t, r') {
      forall v: nat ensures PageKept(s, t, r', v) { }
    }
    SpacesIntro(s, t, r);
  }

  lemma SpacesOpened(s: State, t: State, r: nat)
    requires Opened(s, t, r)
    ensures SpacesKept(s, t, r)
  {
    hide Pte, SpacesKept;
    forall r': nat | r' != r ensures PagesKept(s, t, r') {
      forall v: nat ensures PageKept(s, t, r', v) {
        assert Alike(Pte(s, r', v), Pte(t, r', v));
        OpenedPage(s, t, r, r', v);
      }
    }
    SpacesIntro(s, t, r);
  }

  lemma OpenedPage(s: State, t: State, r: nat, r': nat, v: nat)
    requires FramesGrew(s, t, r, 0, 0) && r' != r && Alike(Pte(s, r', v), Pte(t, r', v))
    ensures (Owned(s, r', v) ==> Owned(t, r', v)) && (Borrowed(s, r', v) ==> Borrowed(t, r', v))
  {
    hide Pte;
    if Owned(s, r', v) { assert FrameGrew(s, t, r, 0, 0, Ppn(Pte(s, r', v))); }
    if Borrowed(s, r', v) {
      forall f | f in t.owner ensures t.owner[f] != User(r', v) { assert FrameGrew(s, t, r, 0, 0, f); }
    }
  }

  lemma SpacesReclaimed(s: State, t: State, r: nat)
    requires Reclaimed(s, t, r)
    ensures SpacesKept(s, t, r)
  {
    hide Pte, SpacesKept;
    forall r': nat | r' != r ensures PagesKept(s, t, r') {
      forall v: nat ensures PageKept(s, t, r', v) {
        assert Alike(Pte(s, r', v), Pte(t, r', v));
      }
    }
    SpacesIntro(s, t, r);
  }

  /** User code can reach only the process's own pages. */
  lemma SpaceOwnsUserPages(s: State, r: nat, n: nat)
    requires ProcessSpace(s, r, n)
    ensures OwnsUserPages(s, r)
  {
    hide Pte, IsUser, Owned;
    forall v: nat | Reachable(s, r, v) ensures Owned(s, r, v) {
    }
  }

  /**
   Isolation: what user code of one process can reach is no table page, is not free, and cannot be
   reached by another process or at another address.
   */
  lemma UserPagesApart(s: State, r: nat, n: nat, r': nat, n': nat, v: nat, v': nat)
    requires Inv(s) && ProcessSpace(s, r, n) && ProcessSpace(s, r', n') && Reachable(s, r, v) && Reachable(s, r', v')
    ensures Ppn(Pte(s, r, v)) == Ppn(Pte(s, r', v')) ==> r == r' && v == v'
    ensures Ppn(Pte(s, r, v)) !in s.free && forall m :: m in s.node ==> s.node[m] != Ppn(Pte(s, r, v))
  {
    hide InvExcept, ProcessSpace, Pte, Reachable;
    SpaceOwnsUserPages(s, r, n);
    SpaceOwnsUserPages(s, r', n');
    FrameUsedOnce(s, r, v, Ppn(Pte(s, r, v)));
  }

  /**
   For a process of n pages, unmapping a to b meets no missing page exactly if b is at most n: an old
   size that reaches further than the process is not tolerated.
   */
  lemma SpacePresent(s: State, r: nat, n: nat, a: nat, b: nat)
    requires ProcessSpace(s, r, n) && a <= n < TRAPFRAME && a <= b
    ensures (forall v :: a <= v < b ==> Present(s, r, v)) <==> b <= n
  {
    hide Pte, IsUser;
    if b <= n {
      forall v | a <= v < b ensures Present(s, r, v) {
        assert Owned(s, r, v);
        LeafPresent(Pte(s, r, v));
      }
    } else {
      assert !Present(s, r, n);
    }
  }

  lemma LeafPresent(e: nat)
    ensures IsLeaf(e) ==> Flags(e) != PTE_V
  {
  }

  lemma OwnedPresent(s: State, r: nat, v: nat)
    requires v < VPNS && (Owned(s, r, v) || Borrowed(s, r, v))
    ensures Present(s, r, v)
  {
    hide Pte;
    LeafPresent(Pte(s, r, v));
  }

  lemma SpaceLeft(s: State, a: State, b: State, r: nat, n: nat)
    requires ProcessSpace(s, r, n) && Shrank(s, a, r, TRAMPOLINE, TRAMPOLINE + 1)
    requires Shrank(a, b, r, TRAPFRAME, TRAPFRAME + 1)
    ensures forall v :: 0 <= v < n ==> Owned(b, r, v)
    ensures forall v: nat :: v >= n ==> !IsValid(Pte(b, r, v))
    ensures b.node == s.node
  {
    hide Shrank, Owned, Borrowed, Pte, IsUser;
    forall v: nat | v < n ensures Owned(b, r, v) {
      ShrankAhead2(s, a, r, TRAMPOLINE, TRAMPOLINE + 1, v);
      ShrankAhead2(a, b, r, TRAPFRAME, TRAPFRAME + 1, v);
    }
    forall v: nat | v >= n ensures !IsValid(Pte(b, r, v)) {
      if v == TRAMPOLINE || v == TRAPFRAME {
        ShrankGone(s, a, r, TRAMPOLINE, TRAMPOLINE + 1, TRAMPOLINE);
        ShrankGone(a, b, r, TRAPFRAME, TRAPFRAME + 1, TRAPFRAME);
        ShrankAhead2(a, b, r, TRAPFRAME, TRAPFRAME + 1, TRAMPOLINE);
      } else {
        ShrankAhead2(s, a, r, TRAMPOLINE, TRAMPOLINE + 1, v);
        ShrankAhead2(a, b, r, TRAPFRAME, TRAPFRAME + 1, v);
      }
    }
    ShrankAhead2(s, a, r, TRAMPOLINE, TRAMPOLINE + 1, 0);
    ShrankAhead2(a, b, r, TRAPFRAME, TRAPFRAME + 1, 0);
  }

  lemma ShrankGone(s: State, w: State, r: nat, lo: nat, hi: nat, v: nat)
    requires Shrank(s, w, r, lo, hi) && lo <= v < hi
    ensures !IsValid(Pte(w, r, v))
  {
  }

  lemma ReclaimedAfter(s: State, a: State, b: State, t: State, r: nat)
    requires Shrank(s, a, r, TRAMPOLINE, TRAMPOLINE + 1) && Shrank(a, b, r, TRAPFRAME, TRAPFRAME + 1)
    requires Reclaimed(b, t, r)
    ensures Reclaimed(s, t, r)
  {
    forall r': nat, v: nat | r' != r ensures Alike(Pte(s, r', v), Pte(t, r', v)) {
      assert Alike(Pte(b, r', v), Pte(t, r', v));
    }
  }

  lemma NoTableClear(s: State, r: nat, v: nat)
    ensures LowOf(r, v) !in s.node ==> !IsValid(Pte(s, r, v))
  {
  }

  lemma PgUpMonotone(a: nat, b: nat)
    ensures a <= b ==> PgUp(a) <= PgUp(b)
  {
  }

  lemma GrewClear(s: State, t: State, r: nat, lo: nat, hi: nat, v: nat)
    requires Grew(s, t, r, lo, hi) && !(lo <= v < hi)
    ensures Clear(t, r, v) <==> Clear(s, r, v)
  {
    hide Pte;
    GrewElsewhere(s, t, r, lo, hi, v);
  }

  lemma PreparedClear(s: State, page: Page, r: nat, v: nat)
    requires Inv(s) && s.free != []
    ensures Clear(Prepared(s, page), r, v) <==> Clear(s, r, v)
  {
    hide InvExcept, Pte, Prepared;
    PreparedKeeps(s, page);
  }

  lemma PageAt(v: nat)
    ensures v * PGSIZE / PGSIZE == v && (v * PGSIZE + PGSIZE - 1) / PGSIZE == v
  {
  }

  lemma PreparedLists(s: State, page: Page)
    requires s.free != []
    ensures Prepared(s, page).free == s.free[1..]
  {
  }

  /** After growing by uvmalloc or uvmcopy: every process is one still. */
  lemma SpaceAfter(s: State, t: State, r: nat, o: nat, a: nat)
    requires Grew(s, t, r, o, a) && o <= a && forall v :: o <= v < a ==> Clear(s, r, v)
    ensures SpacesKept(s, t, r) && (ProcessSpace(s, r, o) ==> ProcessSpace(t, r, a))
  {
    hide Grew, SpacesKept, Pte, IsUser;
    SpacesGrew(s, t, r, o, a);
    if ProcessSpace(s, r, o) {
      assert !Clear(s, r, TRAPFRAME);
      SpaceGrew(s, t, r, o, a);
    }
  }

  /** The open pages of a process that grew from n to m pages are those it had and the new ones. */
  ghost predicate OpenKept(s: State, t: State, r: nat, n: nat, m: nat) {
    forall g: set<nat> :: OpenSpace(s, r, n, g) && (forall v :: v in g ==> v < n) ==> OpenSpace(t, r, m, g)
  }

  lemma AllOpen(s: State, t: State, r: nat, o: nat, a: nat)
    requires forall v :: o <= v < a ==> Clear(s, r, v) && Holds(t, r, v, USER_PERM, Fill(0))
    ensures forall v :: o <= v < a ==> Open(t, r, v)
  {
    hide Holds, Pte, Open;
    forall v | o <= v < a ensures Open(t, r, v) { UserEntryOpen(t, r, v, Fill(0)); }
  }

  lemma OpenAfter(s: State, t: State, r: nat, o: nat, a: nat)
    requires Grew(s, t, r, o, a) && o <= a && (ProcessSpace(s, r, o) ==> ProcessSpace(t, r, a))
    requires forall v :: o <= v < a ==> Open(t, r, v)
    ensures OpenKept(s, t, r, o, a)
  {
    hide Grew, ProcessSpace, Open, Reachable, OpenSpace;
    forall g: set<nat> | OpenSpace(s, r, o, g) && (forall v :: v in g ==> v < o) ensures OpenSpace(t, r, a, g) {
      OpenIsSpace(s, r, o, g);
      OpenGrew(s, t, r, o, a, g);
    }
  }

  /** The child is open where the parent is. */
  ghost predicate OpenCopied(s: State, t: State, parent: nat, child: nat, n: nat) {
    forall g: set<nat> :: OpenSpace(s, parent, n, g) ==> OpenSpace(t, child, n, g)
  }

  lemma CopiesOpen(s: State, t: State, parent: nat, child: nat, n: nat)
    requires ProcessSpace(t, child, n) && forall v :: 0 <= v < n ==> Copied(s, t, parent, child, v)
    ensures OpenCopied(s, t, parent, child, n)
  {
    hide Copied, ProcessSpace, Open, Reachable, Pte;
    forall g: set<nat> | OpenSpace(s, parent, n, g) ensures OpenSpace(t, child, n, g) {
      forall v: nat ensures (Reachable(t, child, v) ==> v < n && v !in g) && (v < n && v !in g ==> Open(t, child, v)) {
        if v < n {
          SpaceValid(s, parent, n, v);
          CopyOpen(s, t, parent, child, v);
          OpenReach(s, parent, v);
        } else {
          BeyondUnreached(t, child, n, v);
        }
      }
    }
  }

  lemma CopyOpen(s: State, t: State, parent: nat, child: nat, v: nat)
    requires Copied(s, t, parent, child, v)
    ensures Reachable(t, child, v) ==> v < VPNS && IsUser(Pte(s, parent, v))
    ensures Open(s, parent, v) ==> Open(t, child, v)
    ensures IsValid(Pte(s, parent, v)) && Reachable(t, child, v) ==> Reachable(s, parent, v)
  {
    hide Pte;
    EntryFacts(Ppn(Pte(t, child, v)), Flags(Pte(s, parent, v)));
  }

  lemma SpaceValid(s: State, r: nat, n: nat, v: nat)
    requires ProcessSpace(s, r, n) && v < n
    ensures IsValid(Pte(s, r, v))
  {
    hide Pte;
    assert Owned(s, r, v);
  }

  lemma BeyondUnreached(s: State, r: nat, n: nat, v: nat)
    requires ProcessSpace(s, r, n) && v >= n
    ensures !Reachable(s, r, v)
  {
    hide Pte;
  }

  lemma OpenNow(s: State, t: State, r: nat, n: nat, m: nat)
    requires OpenKept(s, t, r, n, m) && OpenSpace(s, r, n, {})
    ensures OpenSpace(t, r, m, {})
  {
    hide OpenSpace;
  }

  lemma PgUpAbove(sz: nat)
    ensures sz <= PgUp(sz) * PGSIZE
  {
  }

  lemma ShrankNodes(s: State, t: State, r: nat, lo: nat, hi: nat)
    requires Shrank(s, t, r, lo, hi)
    ensures t.node == s.node
  {
  }

  lemma OpenSame(s: State, r: nat, n: nat)
    ensures OpenKept(s, s, r, n, n)
  {
    hide OpenSpace;
  }

  lemma OpenLess(s: State, t: State, r: nat, n: nat, m: nat)
    requires m <= n && Shrank(s, t, r, m, n)
    ensures OpenKept(s, t, r, n, m)
  {
    hide OpenSpace, Shrank;
    forall g: set<nat> | OpenSpace(s, r, n, g) ensures OpenSpace(t, r, m, g) { OpenShrank(s, t, r, n, m, g); }
  }

  lemma OpenIsSpace(s: State, r: nat, n: nat, g: set<nat>)
    requires OpenSpace(s, r, n, g)
    ensures ProcessSpace(s, r, n)
  {
  }

  /** The parent's pages are as they were while the child gets its own. */
  lemma SamePages(s: State, t: State, r: nat, lo: nat, hi: nat, r': nat, v: nat)
    requires Grew(s, t, r, lo, hi) && r' != r
    ensures IsValid(Pte(t, r', v)) <==> IsValid(Pte(s, r', v))
    ensures IsValid(Pte(s, r', v)) ==> Pte(t, r', v) == Pte(s, r', v)
    ensures Owned(s, r', v) ==>
              && Owned(t, r', v) && Ppn(Pte(s, r', v)) in s.mem && Ppn(Pte(s, r', v)) in t.mem
              && t.mem[Ppn(Pte(s, r', v))] == s.mem[Ppn(Pte(s, r', v))]
  {
    hide Pte;
    assert Alike(Pte(s, r', v), Pte(t, r', v));
    if Owned(s, r', v) { GrewKeepsOwned(s, t, r, lo, hi, r', v); }
  }

  lemma CopiedNow(s: State, t: State, u: State, parent: nat, child: nat, v: nat)
    requires Pte(t, parent, v) == Pte(s, parent, v) && Ppn(Pte(s, parent, v)) in s.mem
    requires Ppn(Pte(s, parent, v)) in t.mem
    requires t.mem[Ppn(Pte(s, parent, v))] == s.mem[Ppn(Pte(s, parent, v))]
    requires Flags(Pte(t, parent, v)) < 1024
    requires Holds(u, child, v, Flags(Pte(t, parent, v)), t.mem[Ppn(Pte(t, parent, v))])
    ensures Copied(s, u, parent, child, v)
  {
    hide Pte, Holds, Flags;
  }

  const UINT := 0x1_0000_0000

  /** sz + n where that is a 32-bit number, and sz where it is not. */
  function Resized(sz: nat, n: int): (r: nat)
    ensures sz < UINT ==> r < UINT
  {
    if 0 <= sz + n < UINT then sz + n else sz
  }

  lemma SizeFacts(sz: nat, n: int)
    requires -0x8000_0000 <= n < 0x8000_0000
    ensures var from := sz % UINT; var to := (from + n) % UINT;
            && PgUp(from) <= PgUp(sz) && (sz >= UINT ==> PgUp(from) < PgUp(sz)) && PgUp(to) < TRAPFRAME
            && (n > 0 ==> Resized(from, n) == if to >= from then to else from)
            && (n < 0 ==> Resized(from, n) == if to < from then to else from)
            && (to <= from ==> PgUp(to) <= PgUp(from)) && (to >= from ==> PgUp(to) >= PgUp(from))
            && (n > 0 && to >= from ==> to == from + n > 0) && (sz < UINT ==> from == sz)
            && (n > 0 && to < from ==> from > 0)
  {
  }

  /** A process of m pages has not fewer. */
  lemma TooFew(s: State, r: nat, m: nat, n: nat)
    requires ProcessSpace(s, r, m) && n < m
    ensures !ProcessSpace(s, r, n)
  {
    hide Pte, IsUser;
    assert Owned(s, r, n);
  }

  lemma SpaceUnchanged(s: State, t: State, r: nat, lo: nat, n: nat)
    requires Grew(s, t, r, lo, lo) && ProcessSpace(s, r, n)
    ensures ProcessSpace(t, r, n)
  {
    hide Pte, ProcessSpace;
    forall f | f in s.owner ensures FrameGrew(s, t, r, n, n, f) { assert FrameGrew(s, t, r, lo, lo, f); }
    hide Grew, FramesGrew;
    SpaceStays(s, t, r, n);
  }

  lemma SpaceStays(s: State, t: State, r: nat, n: nat)
    requires Grew(s, t, r, n, n) && ProcessSpace(s, r, n)
    ensures ProcessSpace(t, r, n)
  {
    hide Grew;
    SpaceGrew(s, t, r, n, n);
  }

  /** Growing inside a longer process adds no page, and leaves it longer than its new size says. */
  lemma NoneAdded(s: State, t: State, r: nat, n: nat, lo: nat, hi: nat)
    requires ProcessSpace(s, r, n) && lo <= hi && lo < n && Grew(s, t, r, lo, hi)
    requires forall v :: lo <= v < hi ==> Clear(s, r, v)
    ensures hi == lo && !ProcessSpace(t, r, hi)
  {
    hide Pte, IsUser, Grew;
    assert Owned(s, r, lo);
    assert !Clear(s, r, lo);
    SpaceUnchanged(s, t, r, lo, n);
    TooFew(t, r, n, lo);
  }

  lemma TopStays(s: State, t: State, r: nat, n: nat, lo: nat, hi: nat)
    requires ProcessSpace(s, r, n) && lo <= hi < n && Shrank(s, t, r, lo, hi)
    ensures !ProcessSpace(t, r, lo)
  {
    hide Pte, IsUser, Shrank;
    assert Owned(s, r, n - 1);
    ShrankAhead2(s, t, r, lo, hi, n - 1);
  }

  /** A page of a process from n on that is in use is one of the two at the top. */
  lemma MappedAlready(s: State, r: nat, n: nat, at: nat)
    requires ProcessSpace(s, r, n) && n <= at && !Clear(s, r, at)
    ensures at >= TRAPFRAME
  {
    hide Pte, IsUser;
  }

  lemma SpaceOwned(s: State, r: nat, n: nat, a: nat, b: nat)
    requires ProcessSpace(s, r, n) && b <= n
    ensures forall v :: a <= v < b ==> Owned(s, r, v) && Present(s, r, v)
  {
    hide Pte, IsUser, Present;
    forall v | a <= v < b ensures Owned(s, r, v) && Present(s, r, v) { OwnedPresent(s, r, v); }
  }

  lemma ShrankRest(s: State, w: State, r: nat, n: nat)
    requires Shrank(s, w, r, 0, n) && LeavesOnly(s, r)
    ensures (forall v: nat :: Pte(w, r, v) == if v < n then 0 else Pte(s, r, v)) && w.node == s.node && LeavesOnly(w, r)
  {
    hide Pte;
    assert forall v: nat :: Pte(w, r, v) == if v < n then 0 else Pte(s, r, v);
  }

  /** What proc_freepagetable hands to uvmfree. */
  lemma LeftOver(b: State, r: nat, n: nat, m: nat)
    requires n <= TRAPFRAME && (forall v :: 0 <= v < n ==> Owned(b, r, v))
    requires forall v: nat :: v >= n ==> !IsValid(Pte(b, r, v))
    ensures LeavesOnly(b, r) && forall v :: 0 <= v < m && Present(b, r, v) ==> Owned(b, r, v)
    ensures (forall v: nat :: if v < m then Present(b, r, v) else !IsValid(Pte(b, r, v))) <==> m == n
  {
    hide Pte, Flags;
    forall v: nat | v < n ensures Present(b, r, v) && Owned(b, r, v) { OwnedPresent(b, r, v); }
    forall v: nat | v >= n ensures !Present(b, r, v) { }
    forall v: nat | IsValid(Pte(b, r, v)) ensures IsLeaf(Pte(b, r, v)) { assert Owned(b, r, v); }
    if m < n { assert Owned(b, r, m); }
    if m > n { assert !Present(b, r, n); }
    if m == n {
      forall v: nat ensures if v < m then Present(b, r, v) else !IsValid(Pte(b, r, v)) { }
    }
  }

  /** From s to t only a new address space at r appeared, with table pages alone. */
  ghost predicate Opened(s: State, t: State, r: nat) {
    && FramesGrew(s, t, r, 0, 0)
    && (forall r': nat, v: nat :: r' != r ==> Alike(Pte(s, r', v), Pte(t, r', v)))
  }

  /** Every frame has its old owner, every page its contents and every table its translations. */
  ghost predicate Restored(s: State, t: State) {
    && t.owner == s.owner && t.node == s.node && s.mem.Keys == t.mem.Keys == s.owner.Keys
    && (forall f :: f in s.owner && (s.owner[f].User? || s.owner[f].Other?) ==> t.mem[f] == s.mem[f])
    && (forall r: nat, v: nat :: Alike(Pte(s, r, v), Pte(t, r, v)))
  }

  /** No table hangs off r. */
  ghost predicate Unused(s: State, r: nat) {
    forall n :: n in s.node ==> n.r != r
  }

  lemma GoneFlat(s: State, r: nat)
    requires Unused(s, r)
    ensures forall v: nat :: Pte(s, r, v) == 0
  {
  }

  lemma UnusedFrames(s: State, r: nat)
    requires Inv(s) && Unused(s, r)
    ensures forall f :: f in s.owner ==> !PartOf(s.owner[f], r)
    ensures forall v: nat :: Pte(s, r, v) == 0
  {
  }

  lemma NewNodes(s: State, t: State, r: nat)
    requires Inv(s) && Inv(t) && FramesGrew(s, t, r, 0, 0)
    ensures forall n :: n in t.node && n.r != r ==> n in s.node
  {
    forall n | n in t.node && n.r != r ensures n in s.node {
      assert IsTable(t, n);
      assert FrameGrew(s, t, r, 0, 0, t.node[n]);
    }
  }

  lemma CreatedOpened(s: State)
    requires Inv(s) && s.free != []
    ensures Inv(Created(s)) && Opened(s, Created(s), s.free[0]) && Unused(s, s.free[0])
    ensures Root(s.free[0]) in Created(s).node && forall v: nat :: Pte(Created(s), s.free[0], v) == 0
  {
    hide InvExcept, Pte;
    CreatedKeeps(s);
    RootKeys(s);
    CreatedFrames(s);
  }

  lemma CreatedLists(s: State)
    requires s.free != []
    ensures Created(s).free == s.free[1..]
  {
  }

  lemma CreatedFrames(s: State)
    requires s.free != [] && s.free[0] in s.owner && s.owner[s.free[0]] == Free && s.owner.Keys == s.mem.Keys
    requires Root(s.free[0]) !in s.node
    ensures FramesGrew(s, Created(s), s.free[0], 0, 0)
  {
  }

  lemma RootKeys(s: State)
    requires Inv(s)
    ensures s.owner.Keys == s.mem.Keys
  {
  }

  /** Mapping pages of r, or unmapping borrowed ones, leaves other address spaces alone. */
  lemma OpenedMapped(s: State, t: State, u: State, r: nat, first: nat, cnt: nat, f: nat, perm: nat)
    requires perm < 1024 && Opened(s, t, r) && Mapped(t, u, r, first, cnt, f, perm)
    ensures Opened(s, u, r)
  {
    FramesGrewTrans(s, t, u, r, 0, 0, 0);
    forall r': nat, v: nat | r' != r ensures Alike(Pte(s, r', v), Pte(u, r', v)) {
      assert Alike(Pte(s, r', v), Pte(t, r', v)) && Alike(Pte(t, r', v), Pte(u, r', v));
    }
  }

  lemma OpenedShrank(s: State, t: State, u: State, r: nat, lo: nat, hi: nat)
    requires Opened(s, t, r) && Shrank(t, u, r, lo, hi)
    requires forall f :: f in t.owner && t.owner[f].User? ==> t.owner[f].r != r
    ensures Opened(s, u, r)
  {
    forall f | f in s.owner ensures f in u.owner && f in u.mem && FrameGrew(s, u, r, 0, 0, f) {
      assert FrameGrew(s, t, r, 0, 0, f);
    }
    forall r': nat, v: nat | r' != r ensures Alike(Pte(s, r', v), Pte(u, r', v)) {
      assert Alike(Pte(s, r', v), Pte(t, r', v));
    }
  }

  /** A table opened from nothing has no user pages yet. */
  lemma OpenedNoUsers(s: State, t: State, r: nat)
    requires Inv(s) && Unused(s, r) && Opened(s, t, r)
    ensures forall f :: f in t.owner && t.owner[f].User? ==> t.owner[f].r != r
  {
    UnusedFrames(s, r);
    forall f | f in t.owner && t.owner[f].User? ensures t.owner[f].r != r {
      assert FrameGrew(s, t, r, 0, 0, f);
    }
  }

  lemma OpenedReclaimed(s: State, t: State, u: State, r: nat)
    requires Inv(s) && Inv(t) && Opened(s, t, r) && Reclaimed(t, u, r) && Unused(s, r)
    ensures Restored(s, u)
  {
    hide InvExcept, Pte;
    NewNodes(s, t, r);
    UnusedFrames(s, r);
    GoneFlat(u, r);
    forall f | f in s.owner ensures u.owner[f] == s.owner[f] {
      assert FrameGrew(s, t, r, 0, 0, f);
    }
    assert u.owner == s.owner;
    assert u.node == s.node;
    forall f | f in s.owner && (s.owner[f].User? || s.owner[f].Other?) ensures u.mem[f] == s.mem[f] {
      assert FrameGrew(s, t, r, 0, 0, f);
    }
    forall r': nat, v: nat ensures Alike(Pte(s, r', v), Pte(u, r', v)) {
      if r' != r { assert Alike(Pte(s, r', v), Pte(t, r', v)) && Alike(Pte(t, r', v), Pte(u, r', v)); }
    }
  }

  lemma RestoredRefl(s: State)
    requires Inv(s)
    ensures Restored(s, s)
  {
  }

  lemma MappedNothing(s: State, t: State, r: nat, first: nat, f: nat, perm: nat)
    requires perm < 1024 && Mapped(s, t, r, first, 0, f, perm) && forall v: nat :: Pte(s, r, v) == 0
    ensures forall v: nat :: !IsValid(Pte(t, r, v))
  {
    forall v: nat ensures !IsValid(Pte(t, r, v)) {
      assert Alike(Pte(s, r, v), Pte(t, r, v));
    }
  }

  /** The trampoline and, if the second mappages succeeded, the trapframe are mapped; nothing else. */
  lemma TwoMapped(a: State, b: State, c: State, r: nat, tramp: nat, tf: nat, cnt: nat)
    requires (forall v: nat :: Pte(a, r, v) == 0) && cnt <= 1
    requires Mapped(a, b, r, TRAMPOLINE, 1, tramp, PTE_R + PTE_X) && Mapped(b, c, r, TRAPFRAME, cnt, tf, PTE_R + PTE_W)
    requires forall f :: f in c.owner && c.owner[f].User? ==> c.owner[f].r != r
    ensures Pte(c, r, TRAMPOLINE) == Entry(tramp, PTE_R + PTE_X) && Borrowed(c, r, TRAMPOLINE)
    ensures cnt == 1 ==> Pte(c, r, TRAPFRAME) == Entry(tf, PTE_R + PTE_W) && ProcessSpace(c, r, 0)
    ensures cnt == 0 ==> forall v: nat :: v != TRAMPOLINE ==> !IsValid(Pte(c, r, v))
  {
    hide Pte, FramesGrew;
    Closed(tramp);
    Closed(tf);
    EntryFacts(tramp, PTE_R + PTE_X);
    EntryFacts(tf, PTE_R + PTE_W);
    assert Pte(b, r, TRAMPOLINE) == Entry(tramp + (TRAMPOLINE - TRAMPOLINE), PTE_R + PTE_X);
    assert Alike(Pte(b, r, TRAMPOLINE), Pte(c, r, TRAMPOLINE));
    if cnt == 1 { assert Pte(c, r, TRAPFRAME) == Entry(tf + (TRAPFRAME - TRAPFRAME), PTE_R + PTE_W); }
    forall v: nat | v != TRAMPOLINE && !(v == TRAPFRAME && cnt == 1) ensures !IsValid(Pte(c, r, v)) {
      assert Alike(Pte(a, r, v), Pte(b, r, v)) && Alike(Pte(b, r, v), Pte(c, r, v));
    }
  }

  lemma Closed(f: nat)
    ensures !IsUser(Entry(f, PTE_R + PTE_X)) && !IsUser(Entry(f, PTE_R + PTE_W))
  {
    EntryFacts(f, PTE_R + PTE_X);
    EntryFacts(f, PTE_R + PTE_W);
  }

  lemma NoLeavesYet(s: State, r: nat)
    requires forall v: nat :: !IsValid(Pte(s, r, v))
    ensures LeavesOnly(s, r)
  {
  }

  lemma OneLeft(c: State, d: State, r: nat)
    requires Shrank(c, d, r, TRAMPOLINE, TRAMPOLINE + 1)
    requires forall v: nat :: v != TRAMPOLINE ==> !IsValid(Pte(c, r, v))
    ensures (forall v: nat :: !IsValid(Pte(d, r, v))) && d.node == c.node
  {
  }

  lemma NothingYet(s: State)
    requires s == State(map[], [], map[], map[])
    ensures Inv(s)
  {
  }

  lemma PushedIs(s: State, f: nat)
    ensures Pushed(s, f) == State(s.mem[f := Fill(1)], [f] + s.free, s.node, s.owner[f := Free])
  {
  }

  /** Before there are any tables, a new frame on the free list keeps the invariant. */
  lemma FirstFree(s: State, f: nat)
    requires Inv(s) && s.node == map[] && f !in s.owner
    ensures Inv(Pushed(s, f))
  {
    hide UsersOk, LinksOk;
    FirstFreeList(s, f);
    assert LinksOk(Pushed(s, f), {}) && UsersOk(Pushed(s, f)) by { FirstFreeTables(s, f); }
  }

  lemma FirstFreeList(s: State, f: nat)
    requires FreeOk(s) && f !in s.owner
    ensures FreeOk(Pushed(s, f))
  {
    var t := Pushed(s, f);
    forall g | g in t.owner && t.owner[g] == Free ensures g in t.free {
      if g != f { assert g in s.free; }
    }
  }

  lemma FirstFreeTables(s: State, f: nat)
    requires Inv(s) && s.node == map[]
    ensures LinksOk(Pushed(s, f), {}) && UsersOk(Pushed(s, f))
  {
    hide FreeOk;
    assert forall r: nat, v: nat :: Pte(s, r, v) == 0;
  }

  class Kernel {
    var mem: map<nat, Page>
    var freelist: seq<nat>
    ghost var node: map<Node, nat>
    ghost var owner: map<nat, Owner>

    ghost function Abs(): State
      reads this
    {
      State(mem, freelist, node, owner)
    }

    ghost predicate Valid()
      reads this
    {
      Inv(Abs())
    }

    /** kinit: freerange puts the frames lo..hi on the free list. */
    constructor (lo: nat, hi: nat)
      ensures Valid() && node == map[]
      ensures forall f :: f in owner <==> lo <= f < hi
      ensures forall f :: f in owner ==> owner[f] == Free
    {
      mem, freelist, node, owner := map[], [], map[], map[];
      new;
      var p := lo;
      hide InvExcept, Pushed;
      NothingYet(Abs());
      while p + 1 <= hi
        invariant Valid() && node == map[] && (lo <= p <= hi || p == lo)
        invariant forall f :: f in owner <==> lo <= f < p
        invariant forall f :: f in owner ==> owner[f] == Free
      {
        ghost var s := Abs();
        mem, owner := mem[p := Fill(1)], owner[p := Free];
        freelist := [p] + freelist;
        FirstFree(s, p);
        PushedIs(s, p);
        p := p + 1;
      }
    }

    /** Take a frame off the free list; its contents are junk. */
    method Kalloc() returns (ok: bool, f: nat)
      requires Valid()
      modifies this
      ensures Valid()
      ensures ok <==> old(freelist) != []
      ensures !ok ==> Abs() == old(Abs())
      ensures ok ==> f == old(freelist)[0] && Abs() == Popped(old(Abs()))
    {
      f := 0;
      ok := freelist != [];
      if ok {
        PoppedKeeps(Abs());
        f := freelist[0];
        freelist := freelist[1..];
        mem, owner := mem[f := Fill(5)], owner[f := Other];
      }
    }

    /** Put a frame the caller owns back on the free list; panics on a frame that kinit was not given. */
    method Kfree(f: nat, ghost gap: set<Node> := {}) returns (ok: bool)
      requires InvExcept(Abs(), gap) && (f in owner ==> owner[f] == Other)
      modifies this
      ensures InvExcept(Abs(), gap) && (ok <==> f in old(owner))
      ensures Abs() == if ok then Pushed(old(Abs()), f) else old(Abs())
    {
      ok := f in mem;
      if ok {
        PushedKeeps(Abs(), gap, f);
        mem, owner := mem[f := Fill(1)], owner[f := Free];
        freelist := [f] + freelist;
      }
    }

    /**
     walk: the table page holding the entry for page v; panics beyond MAXVA. With alloc the missing
     table pages are created, at most two; no translation of any table changes.
     */
    method Walk(r: nat, v: nat, alloc: bool) returns (ok: bool, pt: nat, panic: bool)
      requires Valid() && Root(r) in node
      modifies this
      ensures panic <==> v >= VPNS
      ensures Valid() && Grew(old(Abs()), Abs(), r, 0, 0) && (panic || !alloc ==> Abs() == old(Abs()))
      ensures ok ==> !panic && LowOf(r, v) in node && pt == node[LowOf(r, v)]
      ensures !ok && !panic ==> LowOf(r, v) !in old(node) && (alloc ==> freelist == [] && |old(freelist)| <= 1)
      ensures |freelist| + 2 >= |old(freelist)|
    {
      hide InvExcept, Grew, AddNode, Pte;
      ghost var s0 := Abs();
      GrewRefl(s0, r, 0);
      if v >= VPNS {
        return false, 0, true;
      }
      pt, ok, panic := r, true, false;
      ghost var n := Root(r);
      RootTable(Abs(), n);
      var level := 2;
      while level > 0
        invariant 0 <= level <= 2 && Valid() && Grew(s0, Abs(), r, 0, 0) && (!alloc ==> Abs() == s0)
        invariant n == if level == 2 then Root(r) else if level == 1 then Mid(r, v / 512 / 512) else LowOf(r, v)
        invariant n in node && pt == node[n] && |freelist| + 2 - level >= |s0.free|
      {
        ghost var s := Abs();
        RootTable(s, n);
        var i := if level == 2 then v / 512 / 512 else (v / 512) % 512;
        FollowLink(s, n, i);
        var pte := mem[pt].ptes[i];
        if IsValid(pte) {
          pt := Ppn(pte);
        } else {
          NoMidNoLow(s, r, v);
          GrewNodes(s0, s, r, 0, 0, LowOf(r, v));
          if !alloc {
            return false, 0, false;
          }
          if freelist != [] { AddNodeGrew(s, n, i, 0); }
          var got, f := Kalloc();
          if !got {
            return false, 0, false;
          }
          mem := mem[f := ZeroTable()];
          mem := mem[pt := Table(mem[pt].ptes[i := Entry(f, 0)])];
          node, owner := node[Child(n, i) := f], owner[f := TableOf(Child(n, i))];
          GrewTrans(s0, s, Abs(), r, 0, 0, 0);
          pt := f;
        }
        n := Child(n, i);
        level := level - 1;
      }
    }

    /**
     mappages: the pages from va to va+size-1, and no others, now map to the frames from pa on. It
     stops after cnt of them when memory runs out for a table page, and panics at the first one that is
     mapped already or lies beyond MAXVA.
     */
    method Mappages(r: nat, va: nat, size: nat, pa: nat, perm: nat) returns (ok: bool, panic: bool, ghost cnt: nat)
      requires Valid() && Root(r) in node && perm < 1024
      modifies this
      ensures Valid() && Mapped(old(Abs()), Abs(), r, va / PGSIZE, cnt, pa / PGSIZE, perm)
      ensures forall v :: va / PGSIZE <= v < va / PGSIZE + cnt ==> Clear(old(Abs()), r, v)
      ensures size == 0 ==> panic && cnt == 0
      ensures ok ==> !panic && cnt == (va + size - 1) / PGSIZE - va / PGSIZE + 1
                     && |freelist| + 2 * cnt >= |old(freelist)|
      ensures !ok && size > 0 ==> cnt <= (va + size - 1) / PGSIZE - va / PGSIZE
      ensures panic && size > 0 ==> !ok && !Clear(old(Abs()), r, va / PGSIZE + cnt)
      ensures !ok && !panic ==> Clear(old(Abs()), r, va / PGSIZE + cnt) && freelist == []
                                && |old(freelist)| < 2 * (cnt + 1)
    {
      hide InvExcept, Grew, Mapped, Pte;
      ghost var s := Abs();
      ok, panic, cnt := false, false, 0;
      MappedRefl(s, r, va / PGSIZE, pa / PGSIZE, perm);
      if size == 0 {
        panic := true;
        return;
      }
      var a, last, f := va / PGSIZE, (va + size - 1) / PGSIZE, pa / PGSIZE;
      ghost var first, f0 := a, f;
      while true
        invariant Valid() && Mapped(s, Abs(), r, first, cnt, f0, perm)
        invariant a == first + cnt && f == f0 + cnt && a <= last && Root(r) in node && !panic
        invariant forall v :: first <= v < first + cnt ==> Clear(s, r, v)
        invariant |freelist| + 2 * cnt >= |s.free|
        decreases last - a
      {
        ghost var w := Abs();
        MappedElsewhere(s, w, r, first, cnt, f0, perm, a);
        var pt;
        ok, pt, panic := Walk(r, a, true);
        MappedGrew(s, w, Abs(), r, first, cnt, f0, perm);
        if panic {
          return;
        }
        if !ok {
          NoTableClear(w, r, a);
          return;
        }
        GrewNodes(w, Abs(), r, 0, 0, Root(r));
        TableEntry(Abs(), r, a);
        MappedElsewhere(s, Abs(), r, first, cnt, f0, perm, a);
        if IsValid(mem[pt].ptes[a % 512]) {
          return false, true, cnt;
        }
        MapOne(s, w, Abs(), r, first, cnt, f0, perm);
        mem := mem[pt := Table(mem[pt].ptes[a % 512 := Entry(f, perm)])];
        cnt := cnt + 1;
        if a == last {
          return;
        }
        a, f := a + 1, f + 1;
      }
    }

    /**
     uvmunmap: the npages pages from v on, and no others, are unmapped; with doFree exactly the frames
     they owned go back to the free list. It panics, with the pages before it unmapped, at the first
     page that is not mapped by a leaf.
     */
    method UvmUnmap(r: nat, v: nat, npages: nat, doFree: bool) returns (ok: bool, ghost done: nat)
      requires Valid() && Root(r) in node
      requires doFree ==> forall w :: v <= w < v + npages && Present(Abs(), r, w) ==> Owned(Abs(), r, w)
      requires !doFree ==> forall w :: v <= w < v + npages && Present(Abs(), r, w) ==> Borrowed(Abs(), r, w)
      modifies this
      ensures Valid() && Shrank(old(Abs()), Abs(), r, v, v + done)
      ensures ok <==> forall w :: v <= w < v + npages ==> Present(old(Abs()), r, w)
      ensures if ok then done == npages else done < npages && !Present(old(Abs()), r, v + done)
      ensures forall w :: v <= w < v + done ==> Present(old(Abs()), r, w)
    {
      hide InvExcept, Pte, Shrank, Flags;
      ghost var s := Abs();
      ShrankRefl(s, r, v);
      var a := v;
      done := 0;
      while a < v + npages
        invariant v <= a == v + done <= v + npages && Valid() && Shrank(s, Abs(), r, v, a) && Root(r) in node
        invariant forall w :: v <= w < a ==> Present(s, r, w)
      {
        ghost var w := Abs();
        ShrankAhead(s, w, r, v, a, a);
        var found, pt, panic := Walk(r, a, false);
        if panic {
          assert !Present(s, r, a);
          return false, done;
        }
        if !found {
          NoTableClear(w, r, a);
          assert !Present(s, r, a);
          return false, done;
        }
        TableEntry(w, r, a);
        var pte := mem[pt].ptes[a % 512];
        if !IsValid(pte) || Flags(pte) == PTE_V {
          assert !Present(s, r, a);
          return false, done;
        }
        assert Present(s, r, a);
        OwnedInMem(w, r, a);
        UnmapOne(s, w, r, v, a, doFree);
        if doFree {
          var pa := Ppn(pte);
          owner := owner[pa := Other];
          assert w.mem[pa := w.mem[pa]] == w.mem;
          WriteKeeps(w, pa, w.mem[pa], Other);
          var _ := Kfree(pa);
        }
        RootTable(Abs(), LowOf(r, a));
        mem := mem[pt := Table(mem[pt].ptes[a % 512 := 0])];
        a, done := a + 1, done + 1;
      }
      ok := true;
    }

    /**
     uvmdealloc: shrink the process from oldsz to newsz bytes. It goes through exactly if every page
     between the two sizes is there; an oldsz beyond the process makes uvmunmap panic.
     */
    method UvmDealloc(r: nat, oldsz: nat, newsz: nat) returns (ok: bool, sz: nat, ghost bad: nat)
      requires Valid() && Root(r) in node
      requires forall v :: PgUp(newsz) <= v < PgUp(oldsz) && Present(Abs(), r, v) ==> Owned(Abs(), r, v)
      modifies this
      ensures Valid() && sz == (if newsz >= oldsz then oldsz else newsz) && SpacesKept(old(Abs()), Abs(), r)
      ensures newsz >= oldsz ==> ok && Abs() == old(Abs())
      ensures newsz < oldsz ==> (ok <==> forall v :: PgUp(newsz) <= v < PgUp(oldsz) ==> Present(old(Abs()), r, v))
      ensures newsz < oldsz && ok ==> Shrank(old(Abs()), Abs(), r, PgUp(newsz), PgUp(oldsz))
      ensures !ok ==> PgUp(newsz) <= bad < PgUp(oldsz) && !Present(old(Abs()), r, bad)
                      && Shrank(old(Abs()), Abs(), r, PgUp(newsz), bad)
      ensures newsz < oldsz && ok && ProcessSpace(old(Abs()), r, PgUp(oldsz)) ==> ProcessSpace(Abs(), r, PgUp(newsz))
    {
      hide InvExcept, Pte, Shrank, Present, ProcessSpace, SpacesKept, Owned;
      ghost var s := Abs();
      ok, bad := true, 0;
      ShrankRefl(s, r, PgUp(newsz));
      SpacesShrank(s, s, r, PgUp(newsz), PgUp(newsz));
      if newsz >= oldsz {
        sz := oldsz;
        return;
      }
      sz := newsz;
      ghost var done := 0;
      if PgUp(newsz) < PgUp(oldsz) {
        ok, done := UvmUnmap(r, PgUp(newsz), PgUp(oldsz) - PgUp(newsz), true);
      }
      bad := PgUp(newsz) + done;
      SpacesShrank(s, Abs(), r, PgUp(newsz), bad);
      PgUpMonotone(newsz, oldsz);
      if ok && ProcessSpace(s, r, PgUp(oldsz)) { SpaceShrank(s, Abs(), r, PgUp(oldsz), PgUp(newsz)); }
    }

    /** The kalloc, fill, mappages, kfree-on-failure sequence shared by uvmalloc and uvmcopy. */
    method AddPage(r: nat, v: nat, perm: nat, page: Page) returns (ok: bool, panic: bool)
      requires Valid() && Root(r) in node
      requires perm < 1024 && IsLeaf(perm) && page.Bytes? && |page.bytes| == PGSIZE
      modifies this
      ensures Valid()
      ensures ok ==> !panic && Clear(old(Abs()), r, v) && Grew(old(Abs()), Abs(), r, v, v + 1)
                     && Holds(Abs(), r, v, perm, page)
      ensures ok ==> |freelist| + 3 >= |old(freelist)|
      ensures panic ==> !Clear(old(Abs()), r, v)
      ensures !ok && !panic ==> Grew(old(Abs()), Abs(), r, v, v) && |old(freelist)| <= 2
    {
      hide InvExcept, Pte, Grew, Mapped, Popped, Holds;
      ghost var s := Abs();
      panic := false;
      var f;
      if freelist != [] { PreparedKeeps(s, page); }
      ok, f := Kalloc();
      if !ok {
        GrewRefl(s, r, v);
        return;
      }
      mem := mem[f := page];
      owner := owner[f := Other];
      PreparedNodes(s, page);
      PreparedLists(s, page);
      PreparedClear(s, page, r, v);
      PageAt(v);
      PageAt(f);
      ghost var cnt;
      ok, panic, cnt := Mappages(r, v * PGSIZE, PGSIZE, f * PGSIZE, perm);
      if panic {
        return;
      }
      if !ok {
        PageRefused(s, Abs(), r, v, perm, page);
        var _ := Kfree(f);
        return;
      }
      PageAdded(s, Abs(), r, v, perm, page);
      mem, owner := mem[f := page], owner[f := User(r, v)];
    }

    /**
     uvmalloc: grow the process from oldsz to newsz bytes with zeroed pages, or report 0 and leave
     every translation and every page as it was. It reports 0 only with fewer than three free frames
     for each new page, and panics only where a page of the range is mapped already or beyond MAXVA.
     */
    method UvmAlloc(r: nat, oldsz: nat, newsz: nat) returns (sz: nat, panic: bool, ghost at: nat)
      requires Valid() && Root(r) in node
      modifies this
      ensures Valid() && (!panic ==>
          (sz == 0 || sz == if newsz < oldsz then oldsz else newsz) && SpacesKept(old(Abs()), Abs(), r))
      ensures newsz < oldsz ==> !panic && sz == oldsz && Abs() == old(Abs())
      ensures panic ==> PgUp(oldsz) <= at < PgUp(newsz) && !Clear(old(Abs()), r, at)
      ensures newsz >= oldsz && !panic && sz != 0 ==> Grew(old(Abs()), Abs(), r, PgUp(oldsz), PgUp(newsz))
      ensures newsz >= oldsz && !panic && sz != 0 ==>
                forall v :: PgUp(oldsz) <= v < PgUp(newsz) ==>
                    Clear(old(Abs()), r, v) && Holds(Abs(), r, v, USER_PERM, Fill(0))
      ensures newsz >= oldsz && !panic && sz == 0 ==> Grew(old(Abs()), Abs(), r, PgUp(oldsz), PgUp(oldsz))
      ensures newsz > 0 && newsz >= oldsz && !panic && sz == 0 ==> |old(freelist)| < 3 * (PgUp(newsz) - PgUp(oldsz))
      ensures newsz >= oldsz && !panic && sz != 0 ==> forall v :: PgUp(oldsz) <= v < PgUp(newsz) ==> Open(Abs(), r, v)
      ensures newsz >= oldsz && !panic && ProcessSpace(old(Abs()), r, PgUp(oldsz)) ==>
                ProcessSpace(Abs(), r, PgUp(if sz == 0 then oldsz else newsz))
      ensures newsz >= oldsz && !panic ==>
          OpenKept(old(Abs()), Abs(), r, PgUp(oldsz), PgUp(if sz == 0 then oldsz else newsz))
    {
      hide InvExcept, Pte, Grew, Shrank, Holds, Clear, Owned, ProcessSpace, SpacesKept, Open, OpenKept;
      panic, at := false, 0;
      ghost var s := Abs();
      var o := PgUp(oldsz);
      GrewRefl(s, r, o);
      SpacesGrew(s, s, r, o, o);
      if newsz < oldsz {
        sz := oldsz;
        return;
      }
      PgUpMonotone(oldsz, newsz);
      var a := o;
      while a * PGSIZE < newsz
        invariant o <= a <= PgUp(newsz) && Valid() && Grew(s, Abs(), r, o, a) && Root(r) in node
        invariant forall v :: o <= v < a ==> Clear(s, r, v) && Holds(Abs(), r, v, USER_PERM, Fill(0))
        invariant |freelist| + 3 * (a - o) >= |s.free|
        decreases newsz - a * PGSIZE
      {
        ghost var t := Abs();
        GrewClear(s, t, r, o, a, a);
        var ok;
        ok, panic := AddPage(r, a, USER_PERM, Fill(0));
        if panic {
          sz, at := 0, a;
          return;
        }
        if !ok {
          GrewTrans(s, t, Abs(), r, o, a, a);
          GrewNodes(t, Abs(), r, a, a, Root(r));
          sz := 0;
          Undo(s, r, o, a);
          SpaceAfter(s, Abs(), r, o, o);
          OpenAfter(s, Abs(), r, o, o);
          return;
        }
        HoldsKept(t, Abs(), r, a, a + 1, r, o, USER_PERM, Fill(0));
        GrewTrans(s, t, Abs(), r, o, a, a + 1);
        GrewNodes(t, Abs(), r, a, a + 1, Root(r));
        a := a + 1;
      }
      sz := newsz;
      SpaceAfter(s, Abs(), r, o, a);
      AllOpen(s, Abs(), r, o, a);
      OpenAfter(s, Abs(), r, o, a);
    }

    /** uvmalloc's way back: the pages added since s are taken away again. */
    method Undo(ghost s: State, r: nat, o: nat, a: nat)
      requires Valid() && Root(r) in node && Inv(s) && o <= a && Grew(s, Abs(), r, o, a)
      requires forall v :: o <= v < a ==> Clear(s, r, v)
      modifies this
      ensures Valid() && Grew(s, Abs(), r, o, o)
    {
      hide InvExcept, Pte, Grew, Shrank, Owned;
      ghost var u := Abs();
      AllOwned(s, u, r, o, a);
      forall v | o <= v < a ensures Present(u, r, v) && !IsValid(Pte(s, r, v)) {
        assert Clear(s, r, v);
        OwnedPresent(u, r, v);
      }
      PgUpOf(a);
      PgUpOf(o);
      ghost var bad;
      var ok, sz;
      ok, sz, bad := UvmDealloc(r, a * PGSIZE, o * PGSIZE);
      if o < a {
        RangeUnowned(s, r, o, a);
        GrewThenShrank(s, u, Abs(), r, o, a);
      }
    }

    /**
     uvmcopy: on success every page of the parent below sz has an equal page, with the same flags, on
     a frame of the child's own; out of memory, the child has no user page and nothing else changed. It
     panics at the first page the parent does not have or the child has already.
     */
    method UvmCopy(parent: nat, child: nat, sz: nat) returns (ok: bool, panic: bool, ghost at: nat)
      requires Valid() && Root(parent) in node && Root(child) in node && parent != child
      requires forall v :: 0 <= v < PgUp(sz) && v < VPNS && IsValid(Pte(Abs(), parent, v)) ==> Owned(Abs(), parent, v)
      modifies this
      ensures Valid() && (!panic ==> SpacesKept(old(Abs()), Abs(), child))
      ensures ok ==> !panic && Grew(old(Abs()), Abs(), child, 0, PgUp(sz))
      ensures ok ==> forall v :: 0 <= v < PgUp(sz) ==>
                     Clear(old(Abs()), child, v) && Copied(old(Abs()), Abs(), parent, child, v)
      ensures panic ==> at < PgUp(sz)
                        && (at >= VPNS || !IsValid(Pte(old(Abs()), parent, at)) || !Clear(old(Abs()), child, at))
      ensures !ok && !panic ==> Grew(old(Abs()), Abs(), child, 0, 0) && |old(freelist)| < 3 * PgUp(sz)
      ensures ok && ProcessSpace(old(Abs()), child, 0) ==> ProcessSpace(Abs(), child, PgUp(sz))
      ensures ok && ProcessSpace(old(Abs()), child, 0) ==> OpenCopied(old(Abs()), Abs(), parent, child, PgUp(sz))
      ensures !ok && !panic && ProcessSpace(old(Abs()), child, 0) ==> ProcessSpace(Abs(), child, 0)
    {
      hide InvExcept, Pte, Grew, Shrank, Holds, Clear, Owned, ProcessSpace, SpacesKept, Copied, Flags, OpenCopied;
      ghost var s := Abs();
      GrewRefl(s, child, 0);
      panic, at := false, 0;
      var i := 0;
      while i * PGSIZE < sz
        invariant 0 <= i <= PgUp(sz) && Valid() && Grew(s, Abs(), child, 0, i)
        invariant Root(parent) in node && Root(child) in node
        invariant forall v :: 0 <= v < i ==> Clear(s, child, v) && Copied(s, Abs(), parent, child, v)
        invariant |freelist| + 3 * i >= |s.free|
        decreases sz - i * PGSIZE
      {
        ghost var t := Abs();
        at := i;
        SamePages(s, t, child, 0, i, parent, i);
        GrewClear(s, t, child, 0, i, i);
        var found, pt;
        found, pt, panic := Walk(parent, i, false);
        if panic || !found {
          NoTableClear(t, parent, i);
          return false, true, i;
        }
        TableEntry(t, parent, i);
        var pte := mem[pt].ptes[i % 512];
        if !IsValid(pte) {
          return false, true, i;
        }
        OwnedPage(t, parent, i);
        ok, panic := AddPage(child, i, Flags(pte), mem[Ppn(pte)]);
        if panic {
          return;
        }
        if !ok {
          GrewTrans(s, t, Abs(), child, 0, i, i);
          GrewNodes(t, Abs(), child, i, i, Root(child));
          CopyUndone(s, child, i);
          SpaceAfter(s, Abs(), child, 0, 0);
          return;
        }
        CopiedKept(s, t, Abs(), parent, child, i);
        CopiedNow(s, t, Abs(), parent, child, i);
        GrewTrans(s, t, Abs(), child, 0, i, i + 1);
        GrewNodes(t, Abs(), child, i, i + 1, Root(parent));
        GrewNodes(t, Abs(), child, i, i + 1, Root(child));
        i := i + 1;
      }
      ok := true;
      SpaceAfter(s, Abs(), child, 0, i);
      if ProcessSpace(s, child, 0) { CopiesOpen(s, Abs(), parent, child, i); }
    }

    /** uvmcopy's way back: the child's i pages are unmapped and freed. */
    method CopyUndone(ghost s: State, child: nat, i: nat)
      requires Valid() && Root(child) in node && Inv(s) && Grew(s, Abs(), child, 0, i)
      requires forall v :: 0 <= v < i ==> Clear(s, child, v)
      modifies this
      ensures Valid() && Grew(s, Abs(), child, 0, 0)
    {
      hide InvExcept, Pte, Grew, Shrank, Owned;
      ghost var u := Abs();
      AllOwned(s, u, child, 0, i);
      forall v | 0 <= v < i ensures Present(u, child, v) && !IsValid(Pte(s, child, v)) {
        assert Clear(s, child, v);
        OwnedPresent(u, child, v);
      }
      ghost var done;
      var ok;
      ok, done := UvmUnmap(child, 0, i, true);
      RangeUnowned(s, child, 0, i);
      GrewThenShrank(s, u, Abs(), child, 0, i);
    }

    /**
     growproc: p->sz becomes sz + n if that is a 32-bit number; otherwise nothing changes, and that counts
     as success. A size of 2^32 or more, which the 32-bit copy of p->sz cannot hold, is where it goes
     wrong: only then is the result not the number of pages the process has.
     */
    method GrowProc(r: nat, sz: nat, n: int) returns (ok: bool, panic: bool, newsz: nat)
      requires Valid() && Root(r) in node && ProcessSpace(Abs(), r, PgUp(sz)) && -0x8000_0000 <= n < 0x8000_0000
      modifies this
      ensures Valid() && (!panic ==> SpacesKept(old(Abs()), Abs(), r))
      ensures panic ==> sz >= UINT && n > 0 && !ok
      ensures !panic ==> Root(r) in node
      ensures ok ==> newsz == Resized(sz % UINT, n)
      ensures !ok ==> newsz == sz && n > 0
      ensures !panic ==> (ProcessSpace(Abs(), r, PgUp(newsz)) <==> sz < UINT || !ok)
      ensures !panic && sz < UINT ==> OpenKept(old(Abs()), Abs(), r, PgUp(sz), PgUp(newsz))
      ensures !ok && !panic && sz < UINT ==> sz + n < UINT && |old(freelist)| < 3 * (PgUp(sz + n) - PgUp(sz))
    {
      hide InvExcept, Pte, Grew, Shrank, Holds, Clear, Owned, ProcessSpace, SpacesKept, Present, PgUp, Open, OpenKept;
      ghost var s := Abs();
      OpenSame(s, r, PgUp(sz));
      ok, panic := true, false;
      var from := sz % UINT;
      var to := (from + n) % UINT;
      newsz := from;
      SizeFacts(sz, n);
      if n > 0 {
        ghost var at;
        newsz, panic, at := UvmAlloc(r, from, to);
        if !panic && to >= from {
          GrewNodes(s, Abs(), r, PgUp(from), if newsz == 0 then PgUp(from) else PgUp(to), Root(r));
        }
        ok := !panic && newsz != 0;
        if panic {
          if sz < UINT { MappedAlready(s, r, PgUp(sz), at); }
          newsz := sz;
        } else if !ok {
          newsz := sz;
          SpaceUnchanged(s, Abs(), r, PgUp(from), PgUp(sz));
        } else if to >= from && sz >= UINT {
          NoneAdded(s, Abs(), r, PgUp(sz), PgUp(from), PgUp(to));
        }
      } else if n < 0 {
        ghost var bad;
        var fine;
        SpaceOwned(s, r, PgUp(sz), PgUp(to), PgUp(from));
        fine, newsz, bad := UvmDealloc(r, from, to);
        if to < from { ShrankNodes(s, Abs(), r, PgUp(to), PgUp(from)); }
        if to < from && sz < UINT { OpenLess(s, Abs(), r, PgUp(from), PgUp(to)); }
        if to < from && sz >= UINT { TopStays(s, Abs(), r, PgUp(sz), PgUp(to), PgUp(from)); }
      } else {
        GrewRefl(s, r, 0);
        SpacesGrew(s, s, r, 0, 0);
      }
      if ok && Abs() == s && sz >= UINT { TooFew(s, r, PgUp(sz), PgUp(newsz)); }
    }

    /**
     freewalk: the table page pt and all below it are freed; panics exactly if a leaf is left below it.
     */
    method Freewalk(pt: nat, ghost n: Node) returns (ok: bool)
      requires Valid() && n in node && node[n] == pt && LeavesOnly(Abs(), n.r)
      modifies this
      ensures ok <==> NoLeaves(old(Abs()), n)
      ensures ok ==> InvExcept(Abs(), {n}) && Removed(old(Abs()), Abs(), Tree(old(Abs()), n), {})
      ensures !ok ==> Valid()
      decreases Level(n)
    {
      hide InvExcept, Pte, Removed, NoLeaves, Tree, IsLeaf, Ppn, LeavesOnly, Walking;
      ghost var s := Abs();
      WalkingStart(s, n, pt);
      for i := 0 to ENTRIES
        invariant Walking(s, Abs(), n, i, pt)
      {
        ghost var w := Abs();
        WalkingAt(s, w, n, i, pt);
        var pte := mem[pt].ptes[i];
        if IsValid(pte) && !IsLeaf(pte) {
          ok := Freewalk(Ppn(pte), Child(n, i));
          if !ok {
            if NoLeaves(w, n) { LeavesBelow(w, n, i); }
            return;
          }
          FreewalkTurn(s, w, Abs(), n, i, pt);
          mem := mem[pt := Table(mem[pt].ptes[i := 0])];
        } else if IsValid(pte) {
          LeafMet(w, n, i);
          return false;
        } else {
          TurnSkip(s, w, n, i, pt);
        }
      }
      FreewalkEnd(s, Abs(), n, pt);
      node, owner := node - {n}, owner[pt := Other];
      ok := Kfree(pt, {n});
    }

    /**
     uvmfree: the user pages below sz, then all table pages, go back to the free list. It goes through
     exactly if the pages below sz are mapped and no others.
     */
    method UvmFree(r: nat, sz: nat) returns (ok: bool)
      requires Valid() && Root(r) in node && LeavesOnly(Abs(), r)
      requires forall v :: 0 <= v < PgUp(sz) && Present(Abs(), r, v) ==> Owned(Abs(), r, v)
      modifies this
      ensures Valid() && (ok ==> Reclaimed(old(Abs()), Abs(), r))
      ensures ok <==> (forall v: nat :: if v < PgUp(sz) then Present(old(Abs()), r, v)
                                        else !IsValid(Pte(old(Abs()), r, v)))
    {
      hide InvExcept, Pte, Shrank, Removed, NoLeaves, Reclaimed, Tree, Owned, LeavesOnly, Present;
      ghost var s := Abs();
      ShrankRefl(s, r, 0);
      if sz > 0 {
        ghost var done;
        ok, done := UvmUnmap(r, 0, PgUp(sz), true);
        if !ok {
          return;
        }
      }
      ghost var w := Abs();
      ShrankRest(s, w, r, PgUp(sz));
      RootTable(w, Root(r));
      ok := Freewalk(r, Root(r));
      if ok {
        LeavesSeen(w, r);
        NoGapAtRoot(Abs(), r);
        ShrankThenRemoved(s, w, Abs(), r, PgUp(sz));
      } else if forall v: nat :: !IsValid(Pte(w, r, v)) {
        EmptyNoLeaves(w, r);
      }
    }

    /**
     proc_freepagetable: for a process of n pages it goes through exactly if sz says so, and then every
     frame of the process comes back once.
     */
    method ProcFreePagetable(r: nat, sz: nat, ghost n: nat) returns (ok: bool)
      requires Valid() && Root(r) in node && ProcessSpace(Abs(), r, n)
      modifies this
      ensures Valid() && (ok <==> PgUp(sz) == n)
      ensures ok ==> Reclaimed(old(Abs()), Abs(), r) && SpacesKept(old(Abs()), Abs(), r)
    {
      hide InvExcept, Pte, Shrank, Reclaimed, Owned, IsUser, Present, LeavesOnly, SpacesKept;
      ghost var s := Abs();
      ghost var done;
      OwnedPresent(s, r, TRAMPOLINE);
      ok, done := UvmUnmap(r, TRAMPOLINE, 1, false);
      ghost var a := Abs();
      ShrankAhead2(s, a, r, TRAMPOLINE, TRAMPOLINE + 1, TRAPFRAME);
      OwnedPresent(a, r, TRAPFRAME);
      ok, done := UvmUnmap(r, TRAPFRAME, 1, false);
      ghost var b := Abs();
      SpaceLeft(s, a, b, r, n);
      LeftOver(b, r, n, PgUp(sz));
      ok := UvmFree(r, sz);
      if ok {
        ReclaimedAfter(s, a, b, Abs(), r);
        SpacesReclaimed(s, Abs(), r);
      }
    }

    /** walkaddr: the frame of a page open to user code. */
    method Walkaddr(r: nat, v: nat) returns (ok: bool, f: nat)
      requires Valid() && Root(r) in node
      modifies this
      ensures Abs() == old(Abs())
      ensures ok <==> Reachable(Abs(), r, v)
      ensures ok ==> f == Ppn(Pte(Abs(), r, v))
    {
      hide InvExcept, Grew;
      if v >= VPNS {
        return false, 0;
      }
      var pt, panic;
      ok, pt, panic := Walk(r, v, false);
      if !ok {
        NoTableClear(Abs(), r, v);
        return false, 0;
      }
      TableEntry(Abs(), r, v);
      var pte := mem[pt].ptes[v % 512];
      if !IsValid(pte) || !IsUser(pte) {
        return false, 0;
      }
      f := Ppn(pte);
    }

    /**
     copyout: succeeds exactly when every page of the range is open to user code, and then the range
     holds src; the rest of memory is as before. On failure a prefix of src may have been stored.
     */
    method Copyout(r: nat, dstva: nat, src: seq<Byte>) returns (ok: bool, done: nat)
      requires Valid() && Root(r) in node && OwnsUserPages(Abs(), r)
      modifies this
      ensures Valid() && done <= |src| && Stored(old(Abs()), Abs(), r, dstva, src[..done])
      ensures ok <==> forall va :: dstva <= va < dstva + |src| ==> Reachable(old(Abs()), r, va / PGSIZE)
      ensures ok ==> done == |src|
    {
      hide InvExcept, Pte, Stored, ByteAt, Reachable, Splice;
      ghost var s := Abs();
      StoredRefl(s, r, dstva);
      done := 0;
      assert src[..0] == [];
      while done < |src|
        invariant 0 <= done <= |src| && Valid() && Stored(s, Abs(), r, dstva, src[..done]) && Root(r) in node
        invariant forall va :: dstva <= va < dstva + done ==> Reachable(s, r, va / PGSIZE)
      {
        ghost var w := Abs();
        StoredFlat(s, w, r, dstva, src[..done], (dstva + done) / PGSIZE);
        var va := dstva + done;
        var found, f := Walkaddr(r, va / PGSIZE);
        if !found {
          assert !Reachable(s, r, va / PGSIZE);
          return false, done;
        }
        var n := PGSIZE - va % PGSIZE;
        if n > |src| - done {
          n := |src| - done;
        }
        StoredOwned(s, w, r, dstva, src[..done], va / PGSIZE);
        OwnedPage(w, r, va / PGSIZE);
        StoreOne(s, w, r, dstva, src[..done], src[done..done + n], f);
        mem := mem[f := Bytes(Splice(mem[f].bytes, va % PGSIZE, src[done..done + n]))];
        owner := owner[f := owner[f]];
        assert src[..done] + src[done..done + n] == src[..done + n];
        SamePage(va, n);
        done := done + n;
      }
      ok := true;
      assert src[..done] == src;
    }

    /** copyin: the bytes of the range, or failure if some page of it is not open to user code. */
    method Copyin(r: nat, srcva: nat, len: nat) returns (ok: bool, dst: seq<Byte>)
      requires Valid() && Root(r) in node && OwnsUserPages(Abs(), r)
      modifies this
      ensures Abs() == old(Abs())
      ensures ok <==> forall va :: srcva <= va < srcva + len ==> Reachable(Abs(), r, va / PGSIZE)
      ensures ok ==> |dst| == len && forall k :: 0 <= k < len ==> dst[k] == ByteAt(Abs(), r, srcva + k)
    {
      hide InvExcept, Pte, Reachable;
      dst := [];
      while |dst| < len
        invariant |dst| <= len && Abs() == old(Abs())
        invariant forall va :: srcva <= va < srcva + |dst| ==> Reachable(Abs(), r, va / PGSIZE)
        invariant forall k :: 0 <= k < |dst| ==> dst[k] == ByteAt(Abs(), r, srcva + k)
        decreases len - |dst|
      {
        var va := srcva + |dst|;
        var found, f := Walkaddr(r, va / PGSIZE);
        if !found {
          return false, dst;
        }
        var n := PGSIZE - va % PGSIZE;
        if n > len - |dst| {
          n := len - |dst|;
        }
        assert Owned(Abs(), r, va / PGSIZE);
        OwnedPage(Abs(), r, va / PGSIZE);
        SamePage(va, n);
        dst := dst + mem[f].bytes[va % PGSIZE..va % PGSIZE + n];
      }
      ok := true;
    }

    /** A successful copyout followed by copyin of the same range gives the bytes back. */
    method CopyoutThenCopyin(r: nat, va: nat, src: seq<Byte>) returns (ok: bool, back: seq<Byte>)
      requires Valid() && Root(r) in node && OwnsUserPages(Abs(), r)
      modifies this
      ensures ok <==> forall a :: va <= a < va + |src| ==> Reachable(old(Abs()), r, a / PGSIZE)
      ensures ok ==> back == src
    {
      hide InvExcept, Pte, Reachable, Owned;
      ghost var s := Abs();
      var done;
      ok, done := Copyout(r, va, src);
      if !ok {
        return false, [];
      }
      StoredSpace(s, Abs(), r, va, src[..done]);
      var again;
      again, back := Copyin(r, va, |src|);
    }

    /** Memory that growproc has given to a process can be used: copyout works at every address below its size. */
    method GrowThenCopyout(r: nat, sz: nat, n: int, va: nat, src: seq<Byte>) returns (grown: bool, newsz: nat, ok: bool)
      requires Valid() && Root(r) in node && OpenSpace(Abs(), r, PgUp(sz), {}) && sz < UINT
      requires -0x8000_0000 <= n < 0x8000_0000
      modifies this
      ensures Valid() && newsz == if grown then Resized(sz, n) else sz
      ensures va + |src| <= newsz ==> ok
      ensures ok ==> src == [] || va + |src| <= PgUp(newsz) * PGSIZE
    {
      hide InvExcept, Pte, Reachable, Open, OpenSpace, OpenKept, SpacesKept, ProcessSpace, Stored, PgUp;
      ghost var s := Abs();
      OpenIsSpace(s, r, PgUp(sz), {});
      var panic;
      grown, panic, newsz := GrowProc(r, sz, n);
      OpenNow(s, Abs(), r, PgUp(sz), PgUp(newsz));
      OpenIsSpace(Abs(), r, PgUp(newsz), {});
      SpaceOwnsUserPages(Abs(), r, PgUp(newsz));
      OpenRange(Abs(), r, PgUp(newsz), va, |src|);
      PgUpAbove(newsz);
      var done;
      ok, done := Copyout(r, va, src);
    }

    /** uvmcreate: an empty page table on a fresh frame. */
    method UvmCreate() returns (ok: bool, r: nat)
      requires Valid()
      modifies this
      ensures Valid() && (ok <==> old(freelist) != [])
      ensures ok ==> Abs() == Created(old(Abs())) && r == old(freelist)[0]
      ensures !ok ==> Abs() == old(Abs())
    {
      hide InvExcept;
      if freelist != [] { CreatedKeeps(Abs()); }
      ok, r := Kalloc();
      if ok {
        mem := mem[r := ZeroTable()];
        node, owner := node[Root(r) := r], owner[r := TableOf(Root(r))];
      }
    }

    /**
     proc_pagetable: a table with the trampoline and the trapframe and nothing else, or, when memory
     runs out at any point, everything back where it was.
     */
    method ProcPagetable(tramp: nat, trapframe: nat) returns (ok: bool, r: nat)
      requires Valid()
      modifies this
      ensures Valid()
      ensures ok ==> Opened(old(Abs()), Abs(), r) && Root(r) in node && ProcessSpace(Abs(), r, 0)
                     && SpacesKept(old(Abs()), Abs(), r)
      ensures ok ==> OpenSpace(Abs(), r, 0, {})
      ensures ok ==> Pte(Abs(), r, TRAMPOLINE) == Entry(tramp, PTE_R + PTE_X)
      ensures ok ==> Pte(Abs(), r, TRAPFRAME) == Entry(trapframe, PTE_R + PTE_W)
      ensures !ok ==> Restored(old(Abs()), Abs()) && |old(freelist)| <= 4
    {
      hide InvExcept, Pte, Mapped, Opened, Reclaimed, Restored, Shrank, Created, Owned, ProcessSpace, SpacesKept,
          LeavesOnly;
      ghost var s := Abs();
      ok, r := UvmCreate();
      if !ok {
        RestoredRefl(s);
        return;
      }
      CreatedOpened(s);
      CreatedLists(s);
      ghost var a := Abs();
      ghost var cnt;
      var panic;
      ok, panic, cnt := Mappages(r, TRAMPOLINE * PGSIZE, PGSIZE, tramp * PGSIZE, PTE_R + PTE_X);
      ghost var b := Abs();
      OpenedMapped(s, a, b, r, TRAMPOLINE, cnt, tramp, PTE_R + PTE_X);
      MappedNodes(a, b, r, TRAMPOLINE, cnt, tramp, PTE_R + PTE_X);
      if !ok {
        MappedNothing(a, b, r, TRAMPOLINE, tramp, PTE_R + PTE_X);
        NoLeavesYet(b, r);
        var fine := UvmFree(r, 0);
        OpenedReclaimed(s, b, Abs(), r);
        return;
      }
      MappedElsewhere(a, b, r, TRAMPOLINE, 1, tramp, PTE_R + PTE_X, TRAPFRAME);
      ok, panic, cnt := Mappages(r, TRAPFRAME * PGSIZE, PGSIZE, trapframe * PGSIZE, PTE_R + PTE_W);
      ghost var c := Abs();
      OpenedMapped(s, b, c, r, TRAPFRAME, cnt, trapframe, PTE_R + PTE_W);
      MappedNodes(b, c, r, TRAPFRAME, cnt, trapframe, PTE_R + PTE_W);
      OpenedNoUsers(s, c, r);
      TwoMapped(a, b, c, r, tramp, trapframe, cnt);
      if !ok {
        OwnedPresent(c, r, TRAMPOLINE);
        ghost var done;
        var fine;
        fine, done := UvmUnmap(r, TRAMPOLINE, 1, false);
        ghost var d := Abs();
        OpenedShrank(s, c, d, r, TRAMPOLINE, TRAMPOLINE + 1);
        OneLeft(c, d, r);
        NoLeavesYet(d, r);
        fine := UvmFree(r, 0);
        OpenedReclaimed(s, d, Abs(), r);
        return;
      }
      SpacesOpened(s, c, r);
      EmptyOpen(c, r);
    }
  }

  /**
   uvmdealloc's comment allows an old size larger than the process. On the smallest case, a table with
   no pages shrunk from one page to none, it panics.
   */
  method OldSizeTooLarge() returns (ok: bool)
    ensures !ok
  {
    hide InvExcept, Pte, Shrank, ProcessSpace, SpacesKept, Owned, Created;
    var k := new Kernel(0, 1);
    ghost var s := k.Abs();
    OneFrame(s);
    var got, r := k.UvmCreate();
    CreatedOpened(s);
    var sz;
    ghost var bad;
    assert forall v: nat :: !IsValid(Pte(k.Abs(), r, v));
    assert !Present(k.Abs(), r, 0);
    ok, sz, bad := k.UvmDealloc(r, PGSIZE, 0);
  }

  lemma OneFrame(s: State)
    requires Inv(s) && 0 in s.owner && s.owner[0] == Free
    ensures s.free != []
  {
    assert 0 in s.free;
  }
}
