/**
 Physical memory and the three-level Sv39 page tables of kernel/vm.c and kernel/kalloc.c, as a value.
 A frame is a physical page number; a page table entry is ppn * 1024 + flags (section 4.4 of the
 RISC-V Privileged Architecture).
 */
module PageTable {

  const PGSIZE := 4096
  const ENTRIES := 512
  const VPNS := 0x400_0000          // MAXVA / PGSIZE, one bit below the Sv39 limit
  const PTE_V := 1
  const PTE_R := 2
  const PTE_W := 4
  const PTE_X := 8
  const PTE_U := 16

  function Ppn(e: nat): nat { e / 1024 }
  function Flags(e: nat): nat { e % 1024 }
  predicate IsValid(e: nat) { Flags(e) % 2 == 1 }
  predicate IsLeaf(e: nat) { (Flags(e) / 2) % 8 != 0 }      // any of R, W, X
  predicate IsUser(e: nat) { (Flags(e) / 16) % 2 == 1 }
  predicate IsReadable(e: nat) { (Flags(e) / 2) % 2 == 1 }
  predicate IsWritable(e: nat) { (Flags(e) / 4) % 2 == 1 }
  predicate IsExecutable(e: nat) { (Flags(e) / 8) % 2 == 1 }

  /** PA2PTE(pa) | perm | PTE_V for the page at frame f. */
  function Entry(f: nat, perm: nat): nat
    requires perm < 1024
  {
    f * 1024 + (if perm % 2 == 1 then perm else perm + 1)
  }

  lemma FlagsOfFlags(e: nat)
    ensures Flags(e) < 1024 && Flags(Flags(e)) == Flags(e)
  {
  }

  lemma EntryFacts(f: nat, perm: nat)
    requires perm < 1024
    ensures Ppn(Entry(f, perm)) == f && Flags(Entry(f, perm)) == if perm % 2 == 1 then perm else perm + 1
    ensures IsValid(Entry(f, perm)) && (IsLeaf(Entry(f, perm)) <==> IsLeaf(perm))
  {
  }

  type Byte = x: int | 0 <= x < 256

  /** A page is used either as a page table or as bytes. */
  datatype Page = Table(ptes: seq<nat>) | Bytes(bytes: seq<Byte>)

  function ZeroTable(): Page { Table(seq(ENTRIES, _ => 0)) }

  /** Where a page-table page hangs: by root frame and the indices that lead to it. */
  datatype Node = Root(r: nat) | Mid(r: nat, i2: nat) | Low(r: nat, i2: nat, i1: nat)

  function Child(n: Node, i: nat): Node
    requires !n.Low?
  {
    match n
    case Root(r) => Mid(r, i)
    case Mid(r, i2) => Low(r, i2, i)
  }

  function Level(n: Node): nat {
    match n case Root(_) => 2 case Mid(_, _) => 1 case Low(_, _, _) => 0
  }

  datatype Owner =
    | Free
    | TableOf(n: Node)
    | User(r: nat, vpn: nat)        // mapped for user page vpn of the table at r
    | Other

  datatype State = State(mem: map<nat, Page>, free: seq<nat>, node: map<Node, nat>, owner: map<nat, Owner>)

  /** The free list holds exactly the frames nobody owns, each once. */
  ghost predicate FreeOk(s: State) {
    && (forall i :: 0 <= i < |s.free| ==> s.free[i] in s.owner && s.owner[s.free[i]] == Free)
    && (forall i, j :: 0 <= i < j < |s.free| ==> s.free[i] != s.free[j])
    && (forall f :: f in s.owner && s.owner[f] == Free ==> f in s.free)
    && s.owner.Keys == s.mem.Keys
  }

  ghost predicate IsTable(s: State, n: Node) {
    && n in s.node && s.node[n] in s.mem && s.node[n] in s.owner && s.owner[s.node[n]] == TableOf(n)
    && s.mem[s.node[n]].Table? && |s.mem[s.node[n]].ptes| == ENTRIES
  }

  function Ptes(s: State, n: Node): seq<nat>
    requires n in s.node && s.node[n] in s.mem && s.mem[s.node[n]].Table?
  {
    s.mem[s.node[n]].ptes
  }

  /** Every table page is owned by one node. */
  ghost predicate NodesOk(s: State) {
    && (forall n :: n in s.node ==> IsTable(s, n))
    && (forall f :: f in s.owner && s.owner[f].TableOf? ==> s.owner[f].n in s.node && s.node[s.owner[f].n] == f)
    && (forall n :: n in s.node && n.Root? ==> s.node[n] == n.r)
    && (forall n :: n in s.node && n.Mid? ==> n.i2 < ENTRIES && Root(n.r) in s.node)
    && (forall n :: n in s.node && n.Low? ==> n.i1 < ENTRIES && Mid(n.r, n.i2) in s.node)
  }

  /** Entry i of the inner node n: a valid entry is a bare pointer to the child, and nothing else. */
  ghost predicate LinkOk(s: State, n: Node, i: nat)
    requires IsTable(s, n) && !n.Low? && i < ENTRIES
  {
    if IsValid(Ptes(s, n)[i])
    then Child(n, i) in s.node && Ptes(s, n)[i] == Entry(s.node[Child(n, i)], 0)
    else Child(n, i) !in s.node
  }

  /** The tables form trees; `gap`, if any, is a node whose parent entry is being rewritten. */
  ghost predicate LinksOk(s: State, gap: set<Node>) {
    NodesOk(s) && forall n, i :: n in s.node && !n.Low? && 0 <= i < ENTRIES && Child(n, i) !in gap ==> LinkOk(s, n, i)
  }

  function LowOf(r: nat, v: nat): Node {
    Low(r, v / 512 / 512, (v / 512) % 512)
  }

  /** The flat map: the entry for page v of the table at r, 0 when no table page covers it. */
  function Pte(s: State, r: nat, v: nat): nat {
    var n := LowOf(r, v);
    if n in s.node && s.node[n] in s.mem && s.mem[s.node[n]].Table? && |s.mem[s.node[n]].ptes| == ENTRIES
    then s.mem[s.node[n]].ptes[v % 512] else 0
  }

  /** A frame owned as a user page is what that page maps to, by a leaf entry. */
  ghost predicate UsersOk(s: State) {
    forall f :: f in s.owner && s.owner[f].User? ==>
      && s.owner[f].vpn < VPNS
      && IsValid(Pte(s, s.owner[f].r, s.owner[f].vpn)) && IsLeaf(Pte(s, s.owner[f].r, s.owner[f].vpn))
      && Ppn(Pte(s, s.owner[f].r, s.owner[f].vpn)) == f
      && f in s.mem && s.mem[f].Bytes? && |s.mem[f].bytes| == PGSIZE
  }

  ghost predicate InvExcept(s: State, gap: set<Node>) {
    FreeOk(s) && LinksOk(s, gap) && UsersOk(s)
  }

  ghost predicate Inv(s: State) {
    InvExcept(s, {})
  }

  /** What the hardware finds, reading entries out of memory level by level. */
  function HardwareWalk(s: State, r: nat, v: nat): nat {
    var e2 := ReadEntry(s, r, v / 512 / 512);
    if !IsValid(e2) then 0 else
      var e1 := ReadEntry(s, Ppn(e2), (v / 512) % 512);
      if !IsValid(e1) then 0 else ReadEntry(s, Ppn(e1), v % 512)
  }

  function ReadEntry(s: State, f: nat, i: nat): nat {
    if f in s.mem && s.mem[f].Table? && i < |s.mem[f].ptes| then s.mem[f].ptes[i] else 0
  }

  /** The flat map is exactly what a hardware walk through the three levels yields. */
  lemma HardwareWalkIsFlat(s: State, r: nat, v: nat)
    requires LinksOk(s, {}) && Root(r) in s.node && v < VPNS
    ensures HardwareWalk(s, r, v) == Pte(s, r, v)
  {
    var i2, i1 := v / 512 / 512, (v / 512) % 512;
    assert IsTable(s, Root(r));
    assert LinkOk(s, Root(r), i2);
    if IsValid(Ptes(s, Root(r))[i2]) {
      assert Child(Root(r), i2) == Mid(r, i2);
      assert LinkOk(s, Mid(r, i2), i1);
      assert Child(Mid(r, i2), i1) == LowOf(r, v);
      if IsValid(Ptes(s, Mid(r, i2))[i1]) { assert IsTable(s, LowOf(r, v)); }
    }
  }

  // ---- changing one frame that is not a table page ----

  /** Frame f now holds `page` and belongs to o. */
  function Put(s: State, f: nat, page: Page, o: Owner): State {
    s.(mem := s.mem[f := page], owner := s.owner[f := o])
  }

  /** No table page is touched, so no translation changes, for any table. */
  lemma PutKeepsLinks(s: State, gap: set<Node>, f: nat, page: Page, o: Owner)
    requires LinksOk(s, gap) && (f in s.owner ==> !s.owner[f].TableOf?) && !o.TableOf?
    ensures LinksOk(Put(s, f, page, o), gap)
    ensures forall r, v :: Pte(Put(s, f, page, o), r, v) == Pte(s, r, v)
  {
    var t := Put(s, f, page, o);
    forall n | n in s.node ensures IsTable(t, n) && Ptes(t, n) == Ptes(s, n) {
      assert IsTable(s, n);
    }
    forall n, i | n in t.node && !n.Low? && 0 <= i < ENTRIES && Child(n, i) !in gap ensures LinkOk(t, n, i) {
      assert LinkOk(s, n, i);
    }
  }

  // ---- changing one entry of a table page ----

  function SetPte(s: State, n: Node, i: nat, e: nat): State
    requires IsTable(s, n) && i < ENTRIES
  {
    s.(mem := s.mem[s.node[n] := Table(Ptes(s, n)[i := e])])
  }

  lemma SetPteTables(s: State, n: Node, i: nat, e: nat)
    requires NodesOk(s) && n in s.node && i < ENTRIES
    ensures NodesOk(SetPte(s, n, i, e))
    ensures Ptes(SetPte(s, n, i, e), n) == Ptes(s, n)[i := e]
    ensures forall m :: m in s.node && m != n ==> Ptes(SetPte(s, n, i, e), m) == Ptes(s, m)
  {
    var t := SetPte(s, n, i, e);
    assert IsTable(s, n);
    forall m | m in s.node
      ensures IsTable(t, m) && (m != n ==> Ptes(t, m) == Ptes(s, m)) && (m == n ==> Ptes(t, m) == Ptes(s, m)[i := e])
    {
      assert IsTable(s, m);
    }
  }

  lemma LowIsLow(r: nat, v: nat)
    ensures LowOf(r, v).Low?
  {
  }

  lemma SameSlot(r: nat, v: nat, r': nat, v': nat)
    ensures LowOf(r, v) == LowOf(r', v') && v % 512 == v' % 512 ==> r == r' && v == v'
  {
    var w, w' := v / 512, v' / 512;
    assert w == w / 512 * 512 + w % 512 && w' == w' / 512 * 512 + w' % 512;
    assert v == w * 512 + v % 512 && v' == w' * 512 + v' % 512;
  }

  /** Writing a leaf entry changes the translation of that one page of that one table. */
  lemma SetLeaf(s: State, r: nat, v: nat, e: nat)
    requires LinksOk(s, {}) && LowOf(r, v) in s.node
    ensures var t := SetPte(s, LowOf(r, v), v % 512, e);
            && LinksOk(t, {})
            && forall r': nat, v': nat :: Pte(t, r', v') == if r' == r && v' == v then e else Pte(s, r', v')
  {
    hide LowOf;
    var n := LowOf(r, v);
    assert n.Low? by { LowIsLow(r, v); }
    var t := SetPte(s, n, v % 512, e);
    SetPteTables(s, n, v % 512, e);
    forall m, i | m in t.node && !m.Low? && 0 <= i < ENTRIES ensures LinkOk(t, m, i) {
      assert LinkOk(s, m, i);
    }
    forall r': nat, v': nat ensures Pte(t, r', v') == if r' == r && v' == v then e else Pte(s, r', v') {
      var m := LowOf(r', v');
      if m in s.node {
        assert IsTable(s, m) && IsTable(t, m);
        SameSlot(r, v, r', v');
      }
    }
  }

  /** Writing an entry of an inner node changes no translation by itself. */
  lemma SetInner(s: State, n: Node, i: nat, e: nat)
    requires !n.Low? && LinksOk(s, {Child(n, i)}) && n in s.node && i < ENTRIES
    requires if IsValid(e) then Child(n, i) in s.node && e == Entry(s.node[Child(n, i)], 0) else Child(n, i) !in s.node
    ensures LinksOk(SetPte(s, n, i, e), {})
    ensures forall r, v :: Pte(SetPte(s, n, i, e), r, v) == Pte(s, r, v)
  {
    var t := SetPte(s, n, i, e);
    SetPteTables(s, n, i, e);
    forall m, j | m in t.node && !m.Low? && 0 <= j < ENTRIES ensures LinkOk(t, m, j) {
      if !(m == n && j == i) {
        SameChild(m, j, n, i);
        assert LinkOk(s, m, j);
      }
    }
    SetInnerFlat(s, n, i, e);
  }

  lemma SetInnerFlat(s: State, n: Node, i: nat, e: nat)
    requires !n.Low? && NodesOk(s) && n in s.node && i < ENTRIES
    ensures forall r, v :: Pte(SetPte(s, n, i, e), r, v) == Pte(s, r, v)
  {
    var t := SetPte(s, n, i, e);
    SetPteTables(s, n, i, e);
    forall r, v ensures Pte(t, r, v) == Pte(s, r, v) {
      var m := LowOf(r, v);
      if m in s.node { assert IsTable(s, m) && IsTable(t, m); }
    }
  }

  lemma SameChild(m: Node, j: nat, n: Node, i: nat)
    requires !m.Low? && !n.Low?
    ensures Child(m, j) == Child(n, i) <==> m == n && j == i
  {
  }

  // ---- adding and removing table pages ----

  /** Frame f becomes the empty table page of node c. */
  function Attach(s: State, c: Node, f: nat): State {
    State(s.mem[f := ZeroTable()], s.free, s.node[c := f], s.owner[f := TableOf(c)])
  }

  predicate ParentIn(s: State, c: Node) {
    match c
    case Root(_) => true
    case Mid(r, i2) => i2 < ENTRIES && Root(r) in s.node
    case Low(r, i2, i1) => i1 < ENTRIES && Mid(r, i2) in s.node
  }

  lemma AttachKeeps(s: State, c: Node, f: nat)
    requires LinksOk(s, {}) && c !in s.node && ParentIn(s, c) && (c.Root? ==> c.r == f)
    requires f in s.owner && !s.owner[f].TableOf?
    ensures LinksOk(Attach(s, c, f), {c})
    ensures forall r, v :: Pte(Attach(s, c, f), r, v) == Pte(s, r, v)
  {
    var t := Attach(s, c, f);
    forall m | m in t.node ensures IsTable(t, m) && Ptes(t, m) == if m == c then ZeroTable().ptes else Ptes(s, m) {
      if m != c { assert IsTable(s, m); }
    }
    forall m, j | m in t.node && !m.Low? && 0 <= j < ENTRIES && Child(m, j) !in {c} ensures LinkOk(t, m, j) {
      if m == c {
        assert Child(c, j) !in s.node;
      } else {
        assert LinkOk(s, m, j);
      }
    }
    forall r, v ensures Pte(t, r, v) == Pte(s, r, v) {
      var m := LowOf(r, v);
      if m in t.node { assert IsTable(t, m); }
      if m in s.node { assert IsTable(s, m); }
    }
  }

  /** walk's allocation: frame f becomes the empty child i of node n. */
  function AddNode(s: State, n: Node, i: nat, f: nat): State
    requires IsTable(s, n) && !n.Low? && i < ENTRIES && s.node[n] != f
  {
    SetPte(Attach(s, Child(n, i), f), n, i, Entry(f, 0))
  }

  lemma AddNodeFacts(s: State, n: Node, i: nat, f: nat)
    requires LinksOk(s, {}) && n in s.node && !n.Low? && i < ENTRIES && !IsValid(Ptes(s, n)[i])
    requires f in s.owner && !s.owner[f].TableOf?
    ensures IsTable(s, n) && s.node[n] != f && Child(n, i) !in s.node && ParentIn(s, Child(n, i))
  {
    assert LinkOk(s, n, i);
  }

  lemma AddNodeKeeps(s: State, n: Node, i: nat, f: nat)
    requires LinksOk(s, {}) && n in s.node && !n.Low? && i < ENTRIES && !IsValid(Ptes(s, n)[i])
    requires f in s.owner && !s.owner[f].TableOf?
    ensures IsTable(s, n) && s.node[n] != f
    ensures LinksOk(AddNode(s, n, i, f), {})
    ensures forall r, v :: Pte(AddNode(s, n, i, f), r, v) == Pte(s, r, v)
  {
    hide LinksOk, NodesOk;
    var c := Child(n, i);
    AddNodeFacts(s, n, i, f);
    AttachKeeps(s, c, f);
    EntryFacts(f, 0);
    SetInner(Attach(s, c, f), n, i, Entry(f, 0));
  }

  /** The table page of node n is given up; its parent's entry is not erased yet. */
  function Detach(s: State, n: Node): State
    requires n in s.node
  {
    s.(node := s.node - {n}, owner := s.owner[s.node[n] := Other])
  }

  /** Nothing hangs below a table page without valid entries. */
  lemma NoChildren(s: State, n: Node, m: Node)
    requires LinksOk(s, {}) && n in s.node && (forall i :: 0 <= i < ENTRIES ==> !IsValid(Ptes(s, n)[i])) && m in s.node
    ensures m.Mid? ==> Root(m.r) != n
    ensures m.Low? ==> Mid(m.r, m.i2) != n
  {
    assert IsTable(s, n) && IsTable(s, m);
    forall j | !n.Low? && 0 <= j < ENTRIES ensures Child(n, j) !in s.node { assert LinkOk(s, n, j); }
    assert m.Mid? ==> Child(Root(m.r), m.i2) == m;
    assert m.Low? ==> Child(Mid(m.r, m.i2), m.i1) == m;
  }

  lemma DetachKeeps(s: State, n: Node)
    requires LinksOk(s, {}) && n in s.node && (forall i :: 0 <= i < ENTRIES ==> !IsValid(Ptes(s, n)[i]))
    ensures LinksOk(Detach(s, n), {n})
    ensures forall r, v :: IsValid(Pte(s, r, v)) || IsValid(Pte(Detach(s, n), r, v)) ==>
                             Pte(Detach(s, n), r, v) == Pte(s, r, v)
  {
    var t := Detach(s, n);
    DetachLinks(s, n);
    forall r, v | IsValid(Pte(s, r, v)) || IsValid(Pte(t, r, v)) ensures Pte(t, r, v) == Pte(s, r, v) {
      var m := LowOf(r, v);
      if m in t.node { assert IsTable(t, m); }
      assert !IsValid(Ptes(s, n)[v % 512]);
    }
  }

  lemma DetachLinks(s: State, n: Node)
    requires LinksOk(s, {}) && n in s.node && (forall i :: 0 <= i < ENTRIES ==> !IsValid(Ptes(s, n)[i]))
    ensures LinksOk(Detach(s, n), {n})
  {
    var t := Detach(s, n);
    assert IsTable(s, n);
    forall m | m in t.node ensures IsTable(t, m) && Ptes(t, m) == Ptes(s, m) && ParentIn(t, m) {
      assert IsTable(s, m);
      NoChildren(s, n, m);
    }
    forall m, j | m in t.node && !m.Low? && 0 <= j < ENTRIES && Child(m, j) !in {n} ensures LinkOk(t, m, j) {
      assert LinkOk(s, m, j);
    }
  }

  // ---- the steps of kalloc, kfree and of the mapping functions keep the invariant ----

  function Fill(x: Byte): Page { Bytes(seq(PGSIZE, _ => x)) }

  /** kalloc: the first free frame, filled with junk, now belongs to the caller. */
  function Popped(s: State): State
    requires s.free != []
  {
    Put(s, s.free[0], Fill(5), Other).(free := s.free[1..])
  }

  /** kfree of a frame the caller owns. */
  function Pushed(s: State, f: nat): State {
    Put(s, f, Fill(1), Free).(free := [f] + s.free)
  }

  ghost predicate SameFlat(s: State, t: State) {
    forall r: nat, v: nat :: Pte(t, r, v) == Pte(s, r, v)
  }

  lemma LinksIgnoreFree(s: State, gap: set<Node>, free: seq<nat>)
    requires LinksOk(s, gap)
    ensures LinksOk(s.(free := free), gap) && SameFlat(s, s.(free := free))
  {
    var t := s.(free := free);
    forall n | n in s.node ensures IsTable(t, n) && Ptes(t, n) == Ptes(s, n) { assert IsTable(s, n); }
    forall n, i | n in t.node && !n.Low? && 0 <= i < ENTRIES && Child(n, i) !in gap ensures LinkOk(t, n, i) {
      assert LinkOk(s, n, i);
    }
  }

  /** Frames that change hands by Put are not user pages before or after, or stay the same page. */
  lemma PutKeepsUsers(s: State, gap: set<Node>, f: nat, page: Page, o: Owner)
    requires UsersOk(s) && LinksOk(s, gap) && (f in s.owner ==> !s.owner[f].TableOf?) && !o.TableOf? && !o.User?
    ensures UsersOk(Put(s, f, page, o))
  {
    PutKeepsLinks(s, gap, f, page, o);
  }

  lemma PoppedKeeps(s: State)
    requires Inv(s) && s.free != []
    ensures Inv(Popped(s)) && SameFlat(s, Popped(s))
  {
    var f := s.free[0];
    PutKeepsLinks(s, {}, f, Fill(5), Other);
    PutKeepsUsers(s, {}, f, Fill(5), Other);
    var t := Put(s, f, Fill(5), Other);
    LinksIgnoreFree(t, {}, s.free[1..]);
    PoppedFree(s);
    UsersFlat(t, Popped(s));
  }

  lemma UsersFlat(s: State, t: State)
    requires UsersOk(s) && SameFlat(s, t) && t.owner == s.owner && t.mem == s.mem
    ensures UsersOk(t)
  {
  }

  lemma PoppedFree(s: State)
    requires FreeOk(s) && s.free != []
    ensures FreeOk(Popped(s))
  {
    var t := Popped(s);
    forall f | f in t.owner && t.owner[f] == Free ensures f in t.free {
      assert f in s.free && f != s.free[0];
    }
  }

  lemma PushedKeeps(s: State, gap: set<Node>, f: nat)
    requires InvExcept(s, gap) && f in s.owner && s.owner[f] == Other
    ensures InvExcept(Pushed(s, f), gap) && SameFlat(s, Pushed(s, f))
  {
    PutKeepsLinks(s, gap, f, Fill(1), Free);
    PutKeepsUsers(s, gap, f, Fill(1), Free);
    var t := Put(s, f, Fill(1), Free);
    LinksIgnoreFree(t, gap, [f] + s.free);
    PushedFree(s, f);
    UsersFlat(t, Pushed(s, f));
  }

  lemma PushedFree(s: State, f: nat)
    requires FreeOk(s) && f in s.owner && s.owner[f] == Other
    ensures FreeOk(Pushed(s, f))
  {
    var t := Pushed(s, f);
    forall g | g in t.owner && t.owner[g] == Free ensures g in t.free {
      if g != f { assert g in s.free; }
    }
  }

  /** A frame becomes the user page that already maps to it. */
  lemma ClaimKeeps(s: State, f: nat, r: nat, v: nat)
    requires Inv(s) && f in s.owner && s.owner[f] == Other && v < VPNS
    requires IsValid(Pte(s, r, v)) && IsLeaf(Pte(s, r, v)) && Ppn(Pte(s, r, v)) == f
    requires s.mem[f].Bytes? && |s.mem[f].bytes| == PGSIZE
    ensures Inv(Put(s, f, s.mem[f], User(r, v))) && SameFlat(s, Put(s, f, s.mem[f], User(r, v)))
  {
    PutKeepsLinks(s, {}, f, s.mem[f], User(r, v));
  }

  /** A user page's frame goes back to the caller, or gets new contents. */
  lemma WriteKeeps(s: State, f: nat, page: Page, o: Owner)
    requires Inv(s) && f in s.owner && (s.owner[f].User? || s.owner[f] == Other)
    requires o == Other || (o == s.owner[f] && page.Bytes? && |page.bytes| == PGSIZE)
    ensures Inv(Put(s, f, page, o)) && SameFlat(s, Put(s, f, page, o))
  {
    PutKeepsLinks(s, {}, f, page, o);
  }

  /** A leaf entry may be written when no frame is owned as that user page. */
  lemma SetLeafKeeps(s: State, r: nat, v: nat, e: nat)
    requires Inv(s) && LowOf(r, v) in s.node
    requires forall f :: f in s.owner ==> s.owner[f] != User(r, v)
    ensures IsTable(s, LowOf(r, v))
    ensures var t := SetPte(s, LowOf(r, v), v % 512, e);
            && Inv(t)
            && forall r': nat, v': nat :: Pte(t, r', v') == if r' == r && v' == v then e else Pte(s, r', v')
  {
    SetLeaf(s, r, v, e);
    SetLeafFree(s, LowOf(r, v), v % 512, e);
    SetLeafUsers(s, r, v, e);
  }

  lemma SetLeafFree(s: State, n: Node, i: nat, e: nat)
    requires FreeOk(s) && IsTable(s, n) && i < ENTRIES
    ensures FreeOk(SetPte(s, n, i, e))
  {
  }

  lemma SetLeafUsers(s: State, r: nat, v: nat, e: nat)
    requires UsersOk(s) && IsTable(s, LowOf(r, v))
    requires forall f :: f in s.owner ==> s.owner[f] != User(r, v)
    requires var t := SetPte(s, LowOf(r, v), v % 512, e);
             forall r': nat, v': nat :: Pte(t, r', v') == if r' == r && v' == v then e else Pte(s, r', v')
    ensures UsersOk(SetPte(s, LowOf(r, v), v % 512, e))
  {
  }

  /** A table page is added under a node, on the frame just taken from the free list. */
  lemma AddNodeInv(s: State, n: Node, i: nat, f: nat)
    requires Inv(s) && n in s.node && !n.Low? && i < ENTRIES && !IsValid(Ptes(s, n)[i])
    requires f in s.owner && s.owner[f] == Other
    ensures IsTable(s, n) && s.node[n] != f
    ensures Inv(AddNode(s, n, i, f)) && SameFlat(s, AddNode(s, n, i, f))
  {
    AddNodeKeeps(s, n, i, f);
    AddNodeFree(s, n, i, f);
    AddNodeUsers(s, n, i, f);
  }

  lemma AddNodeFree(s: State, n: Node, i: nat, f: nat)
    requires FreeOk(s) && IsTable(s, n) && !n.Low? && i < ENTRIES && s.node[n] != f
    requires f in s.owner && s.owner[f] == Other
    ensures FreeOk(AddNode(s, n, i, f))
  {
  }

  lemma AddNodeUsers(s: State, n: Node, i: nat, f: nat)
    requires UsersOk(s) && IsTable(s, n) && !n.Low? && i < ENTRIES && s.node[n] != f
    requires f in s.owner && s.owner[f] == Other && SameFlat(s, AddNode(s, n, i, f))
    ensures UsersOk(AddNode(s, n, i, f))
  {
  }

  /** Erasing the entry of a child that is already gone. */
  lemma ClearLinkInv(s: State, n: Node, i: nat)
    requires !n.Low? && InvExcept(s, {Child(n, i)}) && n in s.node && i < ENTRIES && Child(n, i) !in s.node
    ensures IsTable(s, n) && Inv(SetPte(s, n, i, 0)) && SameFlat(s, SetPte(s, n, i, 0))
  {
    SetInner(s, n, i, 0);
    SetLeafFree(s, n, i, 0);
    SetInnerUsers(s, n, i, 0);
  }

  lemma SetInnerUsers(s: State, n: Node, i: nat, e: nat)
    requires UsersOk(s) && IsTable(s, n) && i < ENTRIES && SameFlat(s, SetPte(s, n, i, e))
    ensures UsersOk(SetPte(s, n, i, e))
  {
  }

  lemma DetachInv(s: State, n: Node)
    requires Inv(s) && n in s.node && IsTable(s, n) && (forall i :: 0 <= i < ENTRIES ==> !IsValid(Ptes(s, n)[i]))
    ensures InvExcept(Detach(s, n), {n})
    ensures forall r, v :: IsValid(Pte(s, r, v)) || IsValid(Pte(Detach(s, n), r, v)) ==>
                             Pte(Detach(s, n), r, v) == Pte(s, r, v)
  {
    DetachKeeps(s, n);
    DetachUsers(s, n);
    DetachFree(s, n);
  }

  lemma DetachFree(s: State, n: Node)
    requires FreeOk(s) && IsTable(s, n)
    ensures FreeOk(Detach(s, n))
  {
  }

  lemma DetachUsers(s: State, n: Node)
    requires UsersOk(s) && IsTable(s, n)
    requires forall r, v :: IsValid(Pte(s, r, v)) ==> Pte(Detach(s, n), r, v) == Pte(s, r, v)
    ensures UsersOk(Detach(s, n))
  {
  }

  /** A root has no parent, so nothing is left to erase for it. */
  lemma NoGapAtRoot(s: State, r: nat)
    requires InvExcept(s, {Root(r)})
    ensures Inv(s)
  {
    forall n, i | n in s.node && !n.Low? && 0 <= i < ENTRIES ensures LinkOk(s, n, i) {
      assert Child(n, i) !in {Root(r)};
    }
  }

  // ---- a new, empty page table ----

  /** uvmcreate: the first free frame becomes an empty root. */
  function Created(s: State): State
    requires s.free != []
  {
    Attach(Popped(s), Root(s.free[0]), s.free[0])
  }

  lemma CreatedKeeps(s: State)
    requires Inv(s) && s.free != []
    ensures Inv(Created(s)) && SameFlat(s, Created(s))
    ensures var r := s.free[0];
            && r in s.owner && s.owner[r] == Free && (forall n :: n in s.node ==> n.r != r)
            && (forall v: nat :: Pte(s, r, v) == 0)
  {
    hide Pte, FreeOk, UsersOk, NodesOk, LinksOk;
    var r := s.free[0];
    FreshRoot(s);
    PoppedKeeps(s);
    AttachKeeps(Popped(s), Root(r), r);
    AttachFree(Popped(s), Root(r), r);
    AttachUsers(Popped(s), Root(r), r);
    NoGapAtRoot(Created(s), r);
  }

  /** The frame first in the free list is no root, so nothing is mapped under it. */
  lemma FreshRoot(s: State)
    requires Inv(s) && s.free != []
    ensures var r := s.free[0];
            && r in s.owner && s.owner[r] == Free && (forall n :: n in s.node ==> n.r != r)
            && (forall v: nat :: Pte(s, r, v) == 0)
    ensures s.free[0] in Popped(s).owner && Popped(s).owner[s.free[0]] == Other && Root(s.free[0]) !in Popped(s).node
  {
    hide UsersOk, LinkOk;
    var r := s.free[0];
    assert r in s.owner && s.owner[r] == Free;
    forall n | n in s.node ensures s.node[n] in s.owner && s.owner[s.node[n]] == TableOf(n) { assert IsTable(s, n); }
  }

  lemma AttachFree(s: State, c: Node, f: nat)
    requires FreeOk(s) && f in s.owner && s.owner[f] == Other
    ensures FreeOk(Attach(s, c, f))
  {
  }

  lemma AttachUsers(s: State, c: Node, f: nat)
    requires UsersOk(s) && f in s.owner && s.owner[f] == Other && SameFlat(s, Attach(s, c, f))
    ensures UsersOk(Attach(s, c, f))
  {
  }

  // ---- conservation ----

  ghost function Listed(a: seq<nat>): set<nat> { set f | f in a }

  lemma {:induction false} DistinctCard(a: seq<nat>)
    requires forall i, j :: 0 <= i < j < |a| ==> a[i] != a[j]
    ensures |Listed(a)| == |a|
  {
    if a != [] {
      var b, x := a[..|a| - 1], a[|a| - 1];
      DistinctCard(b);
      assert a == b + [x];
      assert Listed(a) == Listed(b) + {x} && x !in Listed(b);
    }
  }

  /** Frames that say which table page they are, and nodes that say which frame they are on. */
  lemma {:induction false} TableCard(frames: set<nat>, nodes: set<Node>, owner: map<nat, Owner>, node: map<Node, nat>)
    requires frames <= owner.Keys && nodes <= node.Keys
    requires forall f :: f in frames ==> owner[f].TableOf? && owner[f].n in nodes && node[owner[f].n] == f
    requires forall n :: n in nodes ==> node[n] in frames && owner[node[n]] == TableOf(n)
    ensures |frames| == |nodes|
    decreases nodes
  {
    if nodes == {} {
      assert frames == {};
    } else {
      var n :| n in nodes;
      TableCard(frames - {node[n]}, nodes - {n}, owner, node);
    }
  }

  ghost function Users(s: State): set<nat> { set f | f in s.owner && s.owner[f].User? }

  ghost function Others(s: State): set<nat> { set f | f in s.owner && s.owner[f].Other? }

  ghost function Tables(s: State): set<nat> { set f | f in s.owner && s.owner[f].TableOf? }

  ghost function Unused(s: State): set<nat> { set f | f in s.owner && s.owner[f].Free? }

  lemma FourKinds(s: State)
    ensures |s.owner.Keys| == |Unused(s)| + |Tables(s)| + |Users(s)| + |Others(s)|
  {
    var a := Unused(s) + Tables(s);
    var b := Users(s) + Others(s);
    assert Unused(s) !! Tables(s) && Users(s) !! Others(s) && a !! b;
    assert s.owner.Keys == a + b;
  }

  /** Every frame counts once: on the free list, as a table page, as a user page, or with another owner. */
  lemma FramesConserved(s: State)
    requires Inv(s)
    ensures |s.mem.Keys| == |s.free| + |s.node.Keys| + |Users(s)| + |Others(s)|
  {
    hide UsersOk, LinkOk, Users, Others;
    FourKinds(s);
    FreeCard(s);
    forall n | n in s.node ensures s.node[n] in Tables(s) && s.owner[s.node[n]] == TableOf(n) { assert IsTable(s, n); }
    TableCard(Tables(s), s.node.Keys, s.owner, s.node);
  }

  lemma FreeCard(s: State)
    requires FreeOk(s)
    ensures |Unused(s)| == |s.free| && s.owner.Keys == s.mem.Keys
  {
    DistinctCard(s.free);
    assert Unused(s) == Listed(s.free);
  }

  /** A user page's frame is used for nothing else: not free, and no table page. */
  lemma FrameUsedOnce(s: State, r: nat, v: nat, f: nat)
    requires Inv(s) && f in s.owner && s.owner[f] == User(r, v)
    ensures Ppn(Pte(s, r, v)) == f && f !in s.free && (forall n :: n in s.node ==> s.node[n] != f)
  {
    hide LinkOk, Pte;
    forall n | n in s.node ensures s.node[n] != f { assert IsTable(s, n); }
  }
}
