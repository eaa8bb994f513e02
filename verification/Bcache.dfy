/**
 The buffer cache of kernel/bio.c, with the pinning that log_write of kernel/log.c adds. Every method
 is one critical section, so any interleaving of processes is a sequence of calls. Locked, referenced
 and pinned buffers are counted as the callers' claims on them.
 */
module Bcache {
  import opened Sets

  const NBUF := 30
  const HEAD := 30     // the list head, one past the buffers

  type Data = seq<bv8>
  datatype Key = Key(dev: nat, blockno: nat)
  datatype Option<T> = None | Some(value: T)

  datatype Buf = Buf(valid: bool, key: Key, locked: bool, refcnt: nat, prev: nat, next: nat, data: Data)

  // ---- the list ----

  /** The buffer after k places in the list, or the head. */
  function At(order: seq<nat>, k: int): nat {
    if 0 <= k < |order| then order[k] else HEAD
  }

  /** The buffer in place k is linked to its neighbours. */
  ghost predicate LinkAt(buf: seq<Buf>, order: seq<nat>, k: int) {
    0 <= k < |order| && order[k] < |buf| && buf[order[k]].next == At(order, k + 1)
        && buf[order[k]].prev == At(order, k - 1)
  }

  /** prev and next link the head and the buffers of order in a ring. */
  ghost predicate Linked(buf: seq<Buf>, order: seq<nat>) {
    && |buf| == NBUF + 1
    && (forall k :: 0 <= k < |order| ==> order[k] < NBUF)
    && (forall k, l :: 0 <= k < l < |order| ==> order[k] != order[l])
    && (forall k :: 0 <= k < |order| ==> LinkAt(buf, order, k))
    && buf[HEAD].next == At(order, 0) && buf[HEAD].prev == At(order, |order| - 1)
  }

  function SetNext(buf: seq<Buf>, b: nat, x: nat): seq<Buf>
    requires b < |buf|
  {
    buf[b := buf[b].(next := x)]
  }

  function SetPrev(buf: seq<Buf>, b: nat, x: nat): seq<Buf>
    requires b < |buf|
  {
    buf[b := buf[b].(prev := x)]
  }

  /** Take b out of the list. */
  function Unlink(buf: seq<Buf>, b: nat): seq<Buf>
    requires b < |buf| && buf[b].next < |buf| && buf[b].prev < |buf|
  {
    SetNext(SetPrev(buf, buf[b].next, buf[b].prev), buf[b].prev, buf[b].next)
  }

  /** Put b behind the head. */
  function PushFront(buf: seq<Buf>, b: nat): seq<Buf>
    requires b < |buf| == NBUF + 1 && buf[HEAD].next < |buf|
  {
    var h := buf[HEAD].next;
    SetNext(SetPrev(SetPrev(SetNext(buf, b, h), b, HEAD), h, b), HEAD, b)
  }

  function Without(order: seq<nat>, p: nat): seq<nat>
    requires p < |order|
  {
    order[..p] + order[p + 1..]
  }

  lemma UnlinkLinked(buf: seq<Buf>, order: seq<nat>, p: nat)
    requires Linked(buf, order) && p < |order|
    ensures buf[order[p]].next < |buf| && buf[order[p]].prev < |buf|
    ensures Linked(Unlink(buf, order[p]), Without(order, p))
    ensures forall k :: 0 <= k < |order| - 1 ==> Without(order, p)[k] != order[p]
  {
    hide LinkAt;
    var b := order[p];
    PlaceOf(buf, order, p);
    var u := Unlink(buf, b);
    var w := Without(order, p);
    forall k | 0 <= k < |w| ensures LinkAt(u, w, k) { UnlinkAt(buf, order, p, k); }
  }

  lemma PlaceOf(buf: seq<Buf>, order: seq<nat>, p: nat)
    requires Linked(buf, order) && p < |order|
    ensures buf[order[p]].next == At(order, p + 1) && buf[order[p]].prev == At(order, p - 1)
  {
    assert LinkAt(buf, order, p);
  }

  lemma UnlinkAt(buf: seq<Buf>, order: seq<nat>, p: nat, k: nat)
    requires Linked(buf, order) && p < |order| && k < |order| - 1
    requires buf[order[p]].next < |buf| && buf[order[p]].prev < |buf|
    ensures LinkAt(Unlink(buf, order[p]), Without(order, p), k)
  {
    var j := if k < p then k else k + 1;
    assert Without(order, p)[k] == order[j];
    PlaceOf(buf, order, p);
    PlaceOf(buf, order, j);
  }

  lemma PushLinked(buf: seq<Buf>, order: seq<nat>, b: nat)
    requires Linked(buf, order) && b < NBUF && forall k :: 0 <= k < |order| ==> order[k] != b
    ensures Linked(PushFront(buf, b), [b] + order)
  {
    hide LinkAt;
    var u := PushFront(buf, b);
    var w := [b] + order;
    forall k | 0 <= k < |w| ensures LinkAt(u, w, k) { PushAt(buf, order, b, k); }
  }

  lemma PushAt(buf: seq<Buf>, order: seq<nat>, b: nat, k: nat)
    requires Linked(buf, order) && b < NBUF && k <= |order| && forall k :: 0 <= k < |order| ==> order[k] != b
    ensures LinkAt(PushFront(buf, b), [b] + order, k)
  {
    if k > 0 { PlaceOf(buf, order, k - 1); }
  }

  // ---- the state and its invariant ----

  /**
   The buffers and the disk. order is the list; users counts the references held by processes; pins are
   the buffers log_write pinned; dirty are locked buffers changed but neither logged nor written; over
   holds the logged updates not yet on disk, each in the pinned buffer holder names; last stamps the
   latest brelse that dropped a buffer's last reference, 0 if there was none.
   */
  datatype State = State(
    buf: seq<Buf>, order: seq<nat>, users: seq<nat>, pins: set<nat>, dirty: set<nat>,
    disk: map<Key, Data>, over: map<Key, Data>, holder: map<Key, nat>, last: seq<nat>, clock: nat)

  /** The contents of block k: the disk, overlaid with the logged updates. */
  function View(s: State, k: Key): Data
    requires k in s.disk
  {
    if k in s.over then s.over[k] else s.disk[k]
  }

  ghost predicate Shape(s: State) {
    |s.buf| == NBUF + 1 && |s.users| == |s.last| == NBUF
  }

  ghost predicate ListOk(s: State) {
    Linked(s.buf, s.order) && |s.order| == NBUF && forall b: nat :: b < NBUF ==> b in s.order
  }

  /** Most recently released first; buffers never released are last. */
  ghost predicate LruOk(s: State)
    requires Shape(s)
  {
    && (forall b: nat :: b < NBUF ==> s.last[b] <= s.clock)
    && (forall k, l :: 0 <= k < l < |s.order| && s.order[k] < NBUF && s.order[l] < NBUF ==>
          s.last[s.order[k]] > s.last[s.order[l]] || s.last[s.order[k]] == 0 == s.last[s.order[l]])
  }

  ghost predicate CountsOk(s: State)
    requires Shape(s)
  {
    && (forall b: nat :: b < NBUF ==> s.buf[b].refcnt == s.users[b] + if b in s.pins then 1 else 0)
    && (forall b: nat :: b < NBUF && s.buf[b].locked ==> s.users[b] > 0)
    && (forall b :: b in s.dirty ==> b < NBUF && s.buf[b].locked && s.buf[b].valid)
    && (forall b :: b in s.pins ==> b < NBUF && s.buf[b].valid && s.buf[b].key.dev != 0)
  }

  ghost predicate UniqueOk(s: State)
    requires Shape(s)
  {
    forall a: nat, b: nat :: a < NBUF && b < NBUF && a != b && s.buf[a].key == s.buf[b].key ==> s.buf[a].key.dev == 0
  }

  ghost predicate DataOk(s: State)
    requires Shape(s)
  {
    && (forall b: nat :: b < NBUF && s.buf[b].valid && s.buf[b].key.dev != 0 ==> s.buf[b].key in s.disk)
    && (forall b: nat :: b < NBUF && s.buf[b].valid && s.buf[b].key.dev != 0 && b !in s.dirty ==>
        s.buf[b].data == View(s, s.buf[b].key))
  }

  ghost predicate OverOk(s: State)
    requires Shape(s)
  {
    forall k :: k in s.over ==> k in s.disk && k in s.holder && s.holder[k] in s.pins && s.holder[k] < NBUF
                                && s.buf[s.holder[k]].key == k
  }

  ghost predicate Inv(s: State) {
    Shape(s) && ListOk(s) && LruOk(s) && CountsOk(s) && UniqueOk(s) && DataOk(s) && OverOk(s)
  }

  // ---- the steps ----

  function Upd(s: State, b: nat, x: Buf): State
    requires b < |s.buf|
  {
    s.(buf := s.buf[b := x])
  }

  /** bget finds the block cached. */
  function Hit(s: State, b: nat): State
    requires b < |s.buf| && b < |s.users|
  {
    Upd(s, b, s.buf[b].(refcnt := s.buf[b].refcnt + 1)).(users := s.users[b := s.users[b] + 1])
  }

  /** bget gives buffer b to another block. */
  function Recycled(s: State, b: nat, k: Key): State
    requires b < |s.buf| && b < |s.users|
  {
    Upd(s, b, s.buf[b].(key := k, valid := false, refcnt := 1)).(users := s.users[b := 1])
  }

  function Locked(s: State, b: nat, v: bool): State
    requires b < |s.buf|
  {
    Upd(s, b, s.buf[b].(locked := v))
  }

  function Loaded(s: State, b: nat): State
    requires b < |s.buf| && s.buf[b].key in s.disk
  {
    Upd(s, b, s.buf[b].(valid := true, data := s.disk[s.buf[b].key]))
  }

  function Modified(s: State, b: nat, d: Data): State
    requires b < |s.buf|
  {
    Upd(s, b, s.buf[b].(data := d)).(dirty := s.dirty + {b})
  }

  function Written(s: State, b: nat): State
    requires b < |s.buf|
  {
    var k := s.buf[b].key;
    s.(disk := s.disk[k := s.buf[b].data], over := s.over - {k}, holder := s.holder - {k}, dirty := s.dirty - {b})
  }

  /** log_write pins a buffer the first time its block is logged. */
  function LogWritten(s: State, b: nat): State
    requires b < |s.buf|
  {
    var k := s.buf[b].key;
    var t := if b in s.pins then s else Upd(s, b, s.buf[b].(refcnt := s.buf[b].refcnt + 1)).(pins := s.pins + {b});
    t.(over := s.over[k := s.buf[b].data], holder := s.holder[k := b], dirty := s.dirty - {b})
  }

  function Unpinned(s: State, b: nat): State
    requires b < |s.buf| && s.buf[b].refcnt > 0
  {
    Upd(s, b, s.buf[b].(refcnt := s.buf[b].refcnt - 1)).(pins := s.pins - {b})
  }

  /** A reference is dropped; the last one moves the buffer to the front of the list. */
  function Dropped(s: State, b: nat): State
    requires b < |s.buf| && b < |s.users| && s.buf[b].refcnt > 0 && s.users[b] > 0
  {
    Upd(s, b, s.buf[b].(refcnt := s.buf[b].refcnt - 1)).(users := s.users[b := s.users[b] - 1])
  }

  function MovedFront(s: State, p: nat): State
    requires |s.buf| == NBUF + 1 && p < |s.order| && s.order[p] < |s.buf| && s.order[p] < |s.last|
    requires s.buf[s.order[p]].next < |s.buf| && s.buf[s.order[p]].prev < |s.buf|
    requires Unlink(s.buf, s.order[p])[HEAD].next < |s.buf|
  {
    var b := s.order[p];
    s.(buf := PushFront(Unlink(s.buf, b), b), order := [b] + Without(s.order, p), clock := s.clock + 1,
        last := s.last[b := s.clock + 1])
  }

  // ---- each step keeps the invariant ----

  /** The list depends on the links only. */
  lemma SameLinks(buf: seq<Buf>, buf': seq<Buf>, order: seq<nat>)
    requires Linked(buf, order) && |buf'| == |buf|
    requires forall b :: 0 <= b < |buf| ==> buf'[b].next == buf[b].next && buf'[b].prev == buf[b].prev
    ensures Linked(buf', order)
  {
    forall k | 0 <= k < |order| ensures LinkAt(buf', order, k) { PlaceOf(buf, order, k); }
  }

  lemma UpdList(s: State, t: State, b: nat)
    requires Shape(s) && ListOk(s) && b < NBUF && Shape(t) && t.order == s.order
    requires t.buf == s.buf[b := t.buf[b]] && t.buf[b].next == s.buf[b].next && t.buf[b].prev == s.buf[b].prev
    ensures ListOk(t)
  {
    SameLinks(s.buf, t.buf, s.order);
  }

  lemma HitInv(s: State, b: nat)
    requires Inv(s) && b < NBUF
    ensures Inv(Hit(s, b))
  {
    hide ListOk;
    UpdList(s, Hit(s, b), b);
  }

  lemma RecycledInv(s: State, b: nat, k: Key)
    requires Inv(s) && b < NBUF && s.buf[b].refcnt == 0 && forall c: nat :: c < NBUF ==> s.buf[c].key != k
    ensures Inv(Recycled(s, b, k))
  {
    hide ListOk;
    UpdList(s, Recycled(s, b, k), b);
  }

  lemma LockedInv(s: State, b: nat, v: bool)
    requires Inv(s) && b < NBUF && (if v then s.users[b] > 0 else b !in s.dirty)
    ensures Inv(Locked(s, b, v))
  {
    hide ListOk;
    UpdList(s, Locked(s, b, v), b);
  }

  /** A block being read in has no logged update: that would sit in a second buffer for the same block. */
  lemma LoadedInv(s: State, b: nat)
    requires Inv(s) && b < NBUF && !s.buf[b].valid && s.buf[b].key.dev != 0 && s.buf[b].key in s.disk
    ensures s.buf[b].key !in s.over
    ensures Inv(Loaded(s, b))
  {
    hide ListOk;
    UpdList(s, Loaded(s, b), b);
    assert s.buf[b].key !in s.over;
  }

  lemma ModifiedInv(s: State, b: nat, d: Data)
    requires Inv(s) && b < NBUF && s.buf[b].locked && s.buf[b].valid
    ensures Inv(Modified(s, b, d))
  {
    hide ListOk;
    UpdList(s, Modified(s, b, d), b);
  }

  lemma WrittenInv(s: State, b: nat)
    requires Inv(s) && b < NBUF && s.buf[b].locked && s.buf[b].valid && s.buf[b].key.dev != 0
    ensures Inv(Written(s, b))
  {
    hide ListOk, LruOk, CountsOk, DataOk;
    UpdList(s, Written(s, b), b);
    SameLru(s, Written(s, b));
    WrittenCounts(s, b);
    WrittenData(s, b);
  }

  lemma WrittenCounts(s: State, b: nat)
    requires Shape(s) && CountsOk(s) && b < NBUF
    ensures Shape(Written(s, b)) && CountsOk(Written(s, b))
  {
  }

  lemma WrittenData(s: State, b: nat)
    requires Shape(s) && DataOk(s) && UniqueOk(s) && b < NBUF && s.buf[b].valid && s.buf[b].key.dev != 0
    ensures Shape(Written(s, b)) && DataOk(Written(s, b))
  {
  }

  lemma SameLru(s: State, t: State)
    requires Shape(s) && LruOk(s) && Shape(t) && t.order == s.order && t.last == s.last && t.clock == s.clock
    ensures LruOk(t)
  {
  }

  lemma LogWrittenInv(s: State, b: nat)
    requires Inv(s) && b < NBUF && s.buf[b].locked && s.buf[b].valid && s.buf[b].key.dev != 0
    ensures Inv(LogWritten(s, b))
  {
    hide ListOk, LruOk, CountsOk, DataOk, OverOk;
    var t := LogWritten(s, b);
    UpdList(s, t, b);
    SameLru(s, t);
    LogWrittenCounts(s, b);
    LogWrittenOver(s, b);
    LogWrittenData(s, b);
  }

  lemma LogWrittenCounts(s: State, b: nat)
    requires Shape(s) && CountsOk(s) && b < NBUF && s.buf[b].locked && s.buf[b].valid && s.buf[b].key.dev != 0
    ensures Shape(LogWritten(s, b)) && CountsOk(LogWritten(s, b))
  {
    if b in s.pins { assert LogWritten(s, b).buf == s.buf && LogWritten(s, b).pins == s.pins; }
  }

  lemma LogWrittenOver(s: State, b: nat)
    requires Shape(s) && OverOk(s) && DataOk(s) && b < NBUF && s.buf[b].valid && s.buf[b].key.dev != 0
    ensures Shape(LogWritten(s, b)) && OverOk(LogWritten(s, b))
  {
    hide View;
  }

  lemma LogWrittenData(s: State, b: nat)
    requires Shape(s) && DataOk(s) && UniqueOk(s) && b < NBUF && s.buf[b].valid && s.buf[b].key.dev != 0
    ensures Shape(LogWritten(s, b)) && DataOk(LogWritten(s, b))
  {
  }

  lemma UnpinnedInv(s: State, b: nat)
    requires Inv(s) && b in s.pins && s.buf[b].key !in s.over
    ensures b < NBUF && s.buf[b].refcnt > 0 && Inv(Unpinned(s, b))
  {
    hide ListOk, LruOk;
    UpdList(s, Unpinned(s, b), b);
    SameLru(s, Unpinned(s, b));
  }

  lemma DroppedInv(s: State, b: nat)
    requires Inv(s) && b < NBUF && s.users[b] > (if s.buf[b].locked then 1 else 0)
    ensures s.buf[b].refcnt > 0 && Inv(Dropped(s, b))
  {
    hide ListOk, LruOk, CountsOk;
    DroppedCounts(s, b);
    UpdList(s, Dropped(s, b), b);
    SameLru(s, Dropped(s, b));
  }

  lemma DroppedCounts(s: State, b: nat)
    requires Shape(s) && CountsOk(s) && b < NBUF && s.users[b] > (if s.buf[b].locked then 1 else 0)
    ensures s.buf[b].refcnt > 0 && Shape(Dropped(s, b)) && CountsOk(Dropped(s, b))
  {
  }

  /** Where b stands in the list. */
  lemma PlaceIn(s: State, b: nat) returns (p: nat)
    requires Inv(s) && b < NBUF
    ensures Shape(s) && p < NBUF == |s.order| && s.order[p] == b
  {
    hide UniqueOk, DataOk, OverOk, LruOk, CountsOk, Linked;
    assert b in s.order;
    p :| p < |s.order| && s.order[p] == b;
  }

  lemma MovedFrontInv(s: State, p: nat)
    requires Inv(s) && p < NBUF
    ensures s.order[p] < NBUF && s.buf[s.order[p]].next < |s.buf| && s.buf[s.order[p]].prev < |s.buf|
    ensures Unlink(s.buf, s.order[p])[HEAD].next < |s.buf|
    ensures Inv(MovedFront(s, p))
  {
    hide CountsOk, UniqueOk, DataOk, OverOk, LruOk;
    var b := s.order[p];
    UnlinkLinked(s.buf, s.order, p);
    PushLinked(Unlink(s.buf, b), Without(s.order, p), b);
    var t := MovedFront(s, p);
    forall x: nat | x < NBUF ensures x in t.order { StillListed(s.order, p, x); }
    MovedLru(s, t, p);
    RelinkCores(s.buf, b);
    SameFields(s, t);
  }

  lemma StillListed(order: seq<nat>, p: nat, x: nat)
    requires p < |order| && x in order
    ensures x in [order[p]] + Without(order, p)
  {
    var k :| 0 <= k < |order| && order[k] == x;
    if k < p { assert ([order[p]] + Without(order, p))[k + 1] == x; }
    else if k > p { assert ([order[p]] + Without(order, p))[k] == x; }
    else { assert ([order[p]] + Without(order, p))[0] == x; }
  }

  lemma MovedLru(s: State, t: State, p: nat)
    requires Shape(s) && LruOk(s) && Shape(t) && p < |s.order| && t.order == [s.order[p]] + Without(s.order, p)
    requires s.order[p] < NBUF
    requires Linked(s.buf, s.order) && t.clock == s.clock + 1 && t.last == s.last[s.order[p] := s.clock + 1]
    ensures LruOk(t)
  {
    hide Linked;
    UnlinkLinked(s.buf, s.order, p);
  }

  /** A buffer apart from its links. */
  function Core(x: Buf): Buf { x.(prev := 0, next := 0) }

  ghost predicate SameCores(buf: seq<Buf>, buf': seq<Buf>) {
    |buf'| == |buf| && forall b :: 0 <= b < |buf| ==> Core(buf'[b]) == Core(buf[b])
  }

  lemma RelinkCores(buf: seq<Buf>, b: nat)
    requires b < |buf| == NBUF + 1 && buf[b].next < |buf| && buf[b].prev < |buf| && Unlink(buf, b)[HEAD].next < |buf|
    ensures SameCores(buf, PushFront(Unlink(buf, b), b))
  {
    hide Core;
    var u := Unlink(buf, b);
    SetCores(buf, buf[b].next, buf[b].prev);
    SetCores(SetPrev(buf, buf[b].next, buf[b].prev), buf[b].prev, buf[b].next);
    var h := u[HEAD].next;
    SetCores(u, b, h);
    SetCores(SetNext(u, b, h), b, HEAD);
    SetCores(SetPrev(SetNext(u, b, h), b, HEAD), h, b);
    SetCores(SetPrev(SetPrev(SetNext(u, b, h), b, HEAD), h, b), HEAD, b);
  }

  lemma SetCores(buf: seq<Buf>, b: nat, x: nat)
    requires b < |buf|
    ensures SameCores(buf, SetNext(buf, b, x)) && SameCores(buf, SetPrev(buf, b, x))
  {
  }

  lemma SameFields(s: State, t: State)
    requires Shape(s) && CountsOk(s) && UniqueOk(s) && DataOk(s) && OverOk(s) && Shape(t) && SameCores(s.buf, t.buf)
    requires t.users == s.users && t.pins == s.pins && t.dirty == s.dirty && t.disk == s.disk && t.over == s.over
    requires t.holder == s.holder
    ensures CountsOk(t) && UniqueOk(t) && DataOk(t) && OverOk(t)
  {
    hide SameCores;
    forall b: nat | b <= NBUF
      ensures t.buf[b].valid == s.buf[b].valid && t.buf[b].key == s.buf[b].key && t.buf[b].locked == s.buf[b].locked
      ensures t.buf[b].refcnt == s.buf[b].refcnt && t.buf[b].data == s.buf[b].data
    {
      CoreFields(s.buf, t.buf, b);
    }
  }

  lemma CoreFields(buf: seq<Buf>, buf': seq<Buf>, b: nat)
    requires SameCores(buf, buf') && b < |buf|
    ensures buf'[b].valid == buf[b].valid && buf'[b].key == buf[b].key && buf'[b].locked == buf[b].locked
    ensures buf'[b].refcnt == buf[b].refcnt && buf'[b].data == buf[b].data
  {
    assert Core(buf'[b]) == Core(buf[b]);
  }

  /** Among the unreferenced buffers, b's last release is the oldest, or never happened. */
  ghost predicate LeastRecent(s: State, b: nat)
    requires Shape(s)
  {
    && b < NBUF && s.buf[b].refcnt == 0
    && forall c: nat :: c < NBUF && c != b && s.buf[c].refcnt == 0 ==> s.last[b] < s.last[c] || s.last[b] == 0
  }

  /** Every buffer from place k on is referenced. */
  ghost predicate BusyFrom(s: State, k: int)
    requires ListOk(s)
  {
    forall q :: 0 <= q < |s.order| && k <= q ==> s.buf[s.order[q]].refcnt > 0
  }

  lemma FirstFreeFromTail(s: State, k: nat)
    requires Inv(s) && k < NBUF && BusyFrom(s, k + 1) && s.buf[s.order[k]].refcnt == 0
    ensures LeastRecent(s, s.order[k])
  {
    hide CountsOk, UniqueOk, DataOk, OverOk, LinkAt;
    forall c: nat | c < NBUF && c != s.order[k] && s.buf[c].refcnt == 0
      ensures s.last[s.order[k]] < s.last[c] || s.last[s.order[k]] == 0
    {
      assert c in s.order;
      var q :| 0 <= q < |s.order| && s.order[q] == c;
    }
  }

  lemma AllPlaces(s: State, k: Key)
    requires Inv(s) && forall q :: 0 <= q < |s.order| ==> s.buf[s.order[q]].key != k
    ensures forall c: nat :: c < NBUF ==> s.buf[c].key != k
  {
    hide CountsOk, UniqueOk, DataOk, OverOk, LruOk, LinkAt;
    forall c: nat | c < NBUF ensures s.buf[c].key != k {
      assert c in s.order;
      var q :| 0 <= q < |s.order| && s.order[q] == c;
    }
  }

  lemma AllBusy(s: State)
    requires Inv(s) && BusyFrom(s, 0)
    ensures forall c: nat :: c < NBUF ==> s.buf[c].refcnt > 0
  {
    hide CountsOk, UniqueOk, DataOk, OverOk, LruOk, LinkAt;
    forall c: nat | c < NBUF ensures s.buf[c].refcnt > 0 {
      assert c in s.order;
      var q :| 0 <= q < |s.order| && s.order[q] == c;
    }
  }

  const EMPTY := Buf(false, Key(0, 0), false, 0, 0, 0, [])

  lemma EmptyInv(s: State)
    requires Shape(s) && ListOk(s) && (forall b: nat :: b < NBUF ==> Core(s.buf[b]) == EMPTY)
    requires s.pins == s.dirty == {} && s.over == map[] && s.clock == 0 && s.users == s.last == seq(NBUF, _ => 0)
    ensures Inv(s)
  {
    hide ListOk;
    forall b: nat | b < NBUF
      ensures !s.buf[b].valid && !s.buf[b].locked && s.buf[b].refcnt == 0 && s.buf[b].key == Key(0, 0)
    {
      assert Core(s.buf[b]) == EMPTY;
    }
  }

  class Cache {
    var buf: seq<Buf>
    var pins: set<nat>               // the buffers in the log header
    var disk: map<Key, Data>
    ghost var order: seq<nat>
    ghost var users: seq<nat>
    ghost var dirty: set<nat>
    ghost var over: map<Key, Data>
    ghost var holder: map<Key, nat>
    ghost var last: seq<nat>
    ghost var clock: nat

    ghost function Abs(): State
      reads this
    {
      State(buf, order, users, pins, dirty, disk, over, holder, last, clock)
    }

    ghost predicate Valid()
      reads this
    {
      Inv(Abs())
    }

    /** binit: all buffers in one ring, none holding a block. */
    constructor (d: map<Key, Data>)
      ensures Valid() && disk == d && forall k :: k in d ==> View(Abs(), k) == d[k]
    {
      buf := seq(NBUF + 1, _ => Buf(false, Key(0, 0), false, 0, HEAD, HEAD, []));
      pins, dirty, disk, over, holder := {}, {}, d, map[], map[];
      order, users, last, clock := [], seq(NBUF, _ => 0), seq(NBUF, _ => 0), 0;
      new;
      LinkAll();
      EmptyInv(Abs());
    }

    /** binit's loop: each buffer in turn is put behind the list head. */
    method LinkAll()
      requires |buf| == NBUF + 1 && buf[HEAD].next == buf[HEAD].prev == HEAD
      requires forall x: nat :: x < NBUF ==> Core(buf[x]) == EMPTY
      modifies `buf, `order
      ensures Linked(buf, order) && |order| == NBUF && (forall b: nat :: b < NBUF ==> b in order)
      ensures forall x: nat :: x < NBUF ==> Core(buf[x]) == EMPTY
    {
      hide Core;
      order := [];
      var b := 0;
      while b < NBUF
        invariant 0 <= b <= NBUF && Linked(buf, order) && |order| == b
        invariant forall k :: 0 <= k < b ==> order[k] < b
        invariant forall x: nat :: x < b ==> x in order
        invariant forall x: nat :: x < NBUF ==> Core(buf[x]) == EMPTY
      {
        PushLinked(buf, order, b);
        PushCores(buf, b, buf[HEAD].next);
        LinkFront(b);
        order := [b] + order;
        b := b + 1;
      }
    }

    /** Put b behind the list head. */
    method LinkFront(b: nat)
      requires b < |buf| == NBUF + 1 && buf[HEAD].next < |buf|
      modifies `buf
      ensures buf == PushFront(old(buf), b)
    {
      var h := buf[HEAD].next;
      buf := buf[b := buf[b].(next := h)];
      buf := buf[b := buf[b].(prev := HEAD)];
      buf := buf[h := buf[h].(prev := b)];
      buf := buf[HEAD := buf[HEAD].(next := b)];
    }

    /** The buffer for block k, with a reference; None is the no-buffers panic. */
    method Bget(k: Key) returns (r: Option<nat>)
      requires Valid()
      modifies `buf, `users
      ensures Valid()
      ensures r.None? ==> Abs() == old(Abs()) && forall c: nat :: c < NBUF ==> buf[c].key != k && buf[c].refcnt > 0
      ensures r.Some? ==> r.value < NBUF && buf[r.value].key == k
      ensures r.Some? && old(buf[r.value].key) == k ==> Abs() == Hit(old(Abs()), r.value)
      ensures r.Some? && old(buf[r.value].key) != k ==>
          Abs() == Recycled(old(Abs()), r.value, k) && LeastRecent(old(Abs()), r.value)
      ensures r.Some? && old(buf[r.value].key) != k ==> forall c: nat :: c < NBUF ==> old(buf[c].key) != k
    {
      hide CountsOk, UniqueOk, DataOk, OverOk, LruOk, LinkAt, LeastRecent;
      ghost var s := Abs();
      var b := buf[HEAD].next;
      ghost var i := 0;
      while b != HEAD
        invariant 0 <= i <= NBUF && b == At(order, i) && buf == old(buf) && users == old(users)
        invariant forall q :: 0 <= q < i ==> buf[order[q]].key != k
        decreases NBUF - i
      {
        if buf[b].key == k {
          HitInv(s, b);
          buf := buf[b := buf[b].(refcnt := buf[b].refcnt + 1)];
          users := users[b := users[b] + 1];
          return Some(b);
        }
        PlaceOf(buf, order, i);
        b := buf[b].next;
        i := i + 1;
      }
      AllPlaces(s, k);
      r := Recycle(k);
    }

    /** The second loop of bget: reuse the least recently used unreferenced buffer. */
    method Recycle(k: Key) returns (r: Option<nat>)
      requires Valid() && forall c: nat :: c < NBUF ==> buf[c].key != k
      modifies `buf, `users
      ensures Valid()
      ensures r.None? ==> Abs() == old(Abs()) && forall c: nat :: c < NBUF ==> buf[c].refcnt > 0
      ensures r.Some? ==> r.value < NBUF && Abs() == Recycled(old(Abs()), r.value, k)
                          && LeastRecent(old(Abs()), r.value)
    {
      hide CountsOk, UniqueOk, DataOk, OverOk, LruOk, LinkAt, LeastRecent;
      ghost var s := Abs();
      var b := buf[HEAD].prev;
      ghost var i := NBUF - 1;
      while b != HEAD
        invariant -1 <= i < NBUF && b == At(order, i) && buf == old(buf) && users == old(users)
        invariant BusyFrom(s, i + 1)
        decreases i + 1
      {
        if buf[b].refcnt == 0 {
          FirstFreeFromTail(s, i);
          RecycledInv(s, b, k);
          buf := buf[b := buf[b].(key := k, valid := false, refcnt := 1)];
          users := users[b := 1];
          return Some(b);
        }
        PlaceOf(buf, order, i);
        b := buf[b].prev;
        i := i - 1;
      }
      AllBusy(s);
      return None;
    }
  
    /** acquiresleep on a buffer the caller has a reference to. */
    method Lock(b: nat)
      requires Valid() && b < NBUF && users[b] > 0 && !buf[b].locked
      modifies `buf
      ensures Valid() && Abs() == Locked(old(Abs()), b, true)
    {
      LockedInv(Abs(), b, true);
      buf := buf[b := buf[b].(locked := true)];
    }

    /** The block's contents, read in if the buffer has been recycled. */
    method Fill(b: nat)
      requires Valid() && b < NBUF && buf[b].locked && buf[b].key.dev != 0 && buf[b].key in disk
      modifies `buf
      ensures Valid() && Abs() == (if old(buf[b].valid) then old(Abs()) else Loaded(old(Abs()), b))
      ensures buf[b].valid && (b !in dirty ==> buf[b].data == View(Abs(), buf[b].key))
    {
      if !buf[b].valid {
        LoadedInv(Abs(), b);
        buf := buf[b := buf[b].(valid := true, data := disk[buf[b].key])];
      }
    }

    /** bread, when no one else holds the block's buffer. */
    method Bread(k: Key) returns (r: Option<nat>)
      requires Valid() && k.dev != 0 && k in disk && forall c: nat :: c < NBUF && buf[c].key == k ==> !buf[c].locked
      modifies `buf, `users
      ensures Valid() && forall x :: x in disk ==> View(Abs(), x) == old(View(Abs(), x))
      ensures r.Some? ==> r.value < NBUF && buf[r.value].key == k && buf[r.value].locked && buf[r.value].valid
      ensures r.Some? ==> buf[r.value].data == View(Abs(), k)
      ensures r.None? ==> Abs() == old(Abs()) && forall c: nat :: c < NBUF ==> buf[c].key != k && buf[c].refcnt > 0
      ensures r.Some? ==> (old(buf[r.value].key) == k || old(buf[r.value].refcnt) == 0) && r.value !in dirty
      ensures r.Some? ==>
          users == old(users)[r.value := if old(buf[r.value].key) == k then old(users[r.value]) + 1 else 1]
      ensures r.Some? ==> forall c: nat :: c < NBUF && c != r.value ==> buf[c] == old(buf[c])
    {
      hide ListOk, UniqueOk, DataOk, OverOk, LruOk, CountsOk;
      ghost var s := Abs();
      r := Bget(k);
      if r.Some? {
        NotDirty(s, r.value, k);
        Referenced(Abs(), r.value);
        Lock(r.value);
        Fill(r.value);
      }
    }

    /** The holder of a buffer changes its data. */
    method Modify(b: nat, d: Data)
      requires Valid() && b < NBUF && buf[b].locked && buf[b].valid
      modifies `buf, `dirty
      ensures Valid() && Abs() == Modified(old(Abs()), b, d)
      ensures forall x :: x in disk ==> View(Abs(), x) == old(View(Abs(), x))
    {
      hide ListOk, UniqueOk, DataOk, OverOk, LruOk, CountsOk;
      ModifiedInv(Abs(), b, d);
      buf := buf[b := buf[b].(data := d)];
      dirty := dirty + {b};
    }

    /** bwrite: the disk, and so the contents of the block, become what the buffer holds. */
    method Bwrite(b: nat)
      requires Valid() && b < NBUF && buf[b].locked && buf[b].valid && buf[b].key.dev != 0
      modifies `disk, `over, `holder, `dirty
      ensures Valid() && Abs() == Written(old(Abs()), b)
      ensures forall x :: x in disk ==> View(Abs(), x) == if x == buf[b].key then buf[b].data else old(View(Abs(), x))
    {
      hide ListOk, UniqueOk, DataOk, OverOk, LruOk, CountsOk;
      WrittenInv(Abs(), b);
      disk := disk[buf[b].key := buf[b].data];
      over := over - {buf[b].key};
      holder := holder - {buf[b].key};
      dirty := dirty - {b};
    }

    /** log_write and bpin: the buffer is pinned once, and the block's contents are what it holds. */
    method LogWrite(b: nat)
      requires Valid() && b < NBUF && buf[b].locked && buf[b].valid && buf[b].key.dev != 0
      modifies `buf, `pins, `over, `holder, `dirty
      ensures Valid() && Abs() == LogWritten(old(Abs()), b)
      ensures forall x :: x in disk ==> View(Abs(), x) == if x == buf[b].key then buf[b].data else old(View(Abs(), x))
    {
      hide ListOk, UniqueOk, DataOk, OverOk, LruOk, CountsOk;
      LogWrittenInv(Abs(), b);
      if b !in pins {
        buf := buf[b := buf[b].(refcnt := buf[b].refcnt + 1)];
        pins := pins + {b};
      }
      over := over[buf[b].key := buf[b].data];
      holder := holder[buf[b].key := b];
      dirty := dirty - {b};
    }

    /** bunpin, once the logged update is on the disk. */
    method Bunpin(b: nat)
      requires Valid() && b in pins && buf[b].key !in over
      modifies `buf, `pins
      ensures Valid() && Abs() == Unpinned(old(Abs()), b)
      ensures forall x :: x in disk ==> View(Abs(), x) == old(View(Abs(), x))
    {
      hide ListOk, UniqueOk, DataOk, OverOk, LruOk, CountsOk;
      UnpinnedInv(Abs(), b);
      buf := buf[b := buf[b].(refcnt := buf[b].refcnt - 1)];
      pins := pins - {b};
    }

    /** releasesleep, for a client that has logged or written what it changed. */
    method Unlock(b: nat)
      requires Valid() && b < NBUF && buf[b].locked && b !in dirty
      modifies `buf
      ensures Valid() && Abs() == Locked(old(Abs()), b, false)
    {
      LockedInv(Abs(), b, false);
      buf := buf[b := buf[b].(locked := false)];
    }

    /** The rest of brelse: drop a reference other than the lock holder's; the last one makes b most recent. */
    method Drop(b: nat)
      requires Valid() && b < NBUF && users[b] > (if buf[b].locked then 1 else 0)
      modifies `buf, `users, `order, `last, `clock
      ensures Valid() && users == old(users)[b := old(users[b]) - 1] && SameCores(Dropped(old(Abs()), b).buf, buf)
      ensures if buf[b].refcnt == 0 then MadeRecent(old(Abs()), Abs(), b) else Abs() == Dropped(old(Abs()), b)
    {
      hide ListOk, UniqueOk, DataOk, OverOk, LruOk, CountsOk, Core;
      DroppedInv(Abs(), b);
      ghost var s := Abs();
      buf := buf[b := buf[b].(refcnt := buf[b].refcnt - 1)];
      users := users[b := users[b] - 1];
      assert Abs() == Dropped(s, b);
      if buf[b].refcnt == 0 { ToFront(b); CoreFields(Dropped(s, b).buf, buf, b); }
    }

    method ToFront(b: nat)
      requires Valid() && b < NBUF
      modifies `buf, `order, `last, `clock
      ensures Valid() && SameCores(old(buf), buf) && MadeRecent(old(Abs()), Abs(), b)
    {
      hide Inv, Core, Unlink, PushFront, Without;
      ghost var s := Abs();
      ghost var p := PlaceIn(s, b);
      MovedFrontInv(s, p);
      RelinkCores(buf, b);
      Relink(b);
      order := [b] + Without(order, p);
      clock := clock + 1;
      last := last[b := clock];
      assert Abs() == MovedFront(s, p);
    }

    method Relink(b: nat)
      requires b < |buf| == NBUF + 1 && buf[b].next < |buf| && buf[b].prev < |buf| && Unlink(buf, b)[HEAD].next < |buf|
      modifies `buf
      ensures buf == PushFront(Unlink(old(buf), b), b)
    {
      var n, v := buf[b].next, buf[b].prev;
      buf := buf[n := buf[n].(prev := v)];
      buf := buf[v := buf[v].(next := n)];
      LinkFront(b);
    }

    method Brelse(b: nat)
      requires Valid() && b < NBUF && buf[b].locked && b !in dirty
      modifies `buf, `users, `order, `last, `clock
      ensures Valid() && users == old(users)[b := old(users[b]) - 1] && !buf[b].locked
      ensures buf[b].refcnt == old(buf[b].refcnt) - 1
      ensures forall x :: x in disk ==> View(Abs(), x) == old(View(Abs(), x))
      ensures if buf[b].refcnt == 0 then MadeRecent(old(Abs()), Abs(), b) else order == old(order) && last == old(last)
      ensures forall c: nat :: c < NBUF ==>
          buf[c].key == old(buf[c].key) && buf[c].data == old(buf[c].data) && buf[c].valid == old(buf[c].valid)
      ensures forall c: nat :: c < NBUF && c != b ==> buf[c].locked == old(buf[c].locked)
    {
      hide ListOk, UniqueOk, DataOk, OverOk, LruOk, CountsOk, Core;
      Referenced(Abs(), b);
      Unlock(b);
      ghost var t := Abs();
      Drop(b);
      Referenced(t, b);
      forall c: nat | c < NBUF
        ensures buf[c].key == t.buf[c].key && buf[c].data == t.buf[c].data && buf[c].valid == t.buf[c].valid
        ensures buf[c].locked == t.buf[c].locked && buf[c].refcnt == Dropped(t, b).buf[c].refcnt
      {
        CoreFields(Dropped(t, b).buf, buf, c);
      }
    }

    /**
     The two breads of a turn of write_log or install_trans. They never meet "bget: no buffers" as long as
     the buffers pinned and those others refer to leave one: the log block finds it, and in a commit
     the home block is a pinned one.
     */
    method CommitReads(logged: Key, home: Key) returns (lb: Option<nat>, hb: Option<nat>)
      requires Valid() && logged.dev != 0 && home.dev != 0 && logged in disk && home in disk && logged != home
      requires Idle(Abs(), logged) && Idle(Abs(), home)
      requires Claims(Abs()) + 1 < NBUF || (Claims(Abs()) < NBUF && Pinned(Abs(), home))
      modifies `buf, `users
      ensures Valid() && lb.Some? && hb.Some? && lb.value < NBUF && hb.value < NBUF && lb.value != hb.value
      ensures Reading(Abs(), lb.value, logged) && Reading(Abs(), hb.value, home)
      ensures buf[lb.value].data == old(View(Abs(), logged)) && buf[hb.value].data == old(View(Abs(), home))
      ensures forall x :: x in disk ==> View(Abs(), x) == old(View(Abs(), x))
      ensures Took(old(Abs()), Abs(), {lb.value, hb.value})
      ensures forall k :: old(Pinned(Abs(), k)) <==> Pinned(Abs(), k)
    {
      hide ListOk, UniqueOk, DataOk, OverOk, LruOk, CountsOk, View, Pinned, Held;
      ghost var s := Abs();
      RoomLeft(s);
      lb := Bread(logged);
      ghost var t := Abs();
      PinsStay(s, t, lb.value);
      Referenced(s, lb.value);
      Referenced(t, lb.value);
      HeldOne(s, t, lb.value);
      RoomLeft(t);
      PinnedCached(t, home);
      hb := Bread(home);
      Referenced(t, hb.value);
      PinsStay(t, Abs(), hb.value);
      TookTwo(s, t, Abs(), lb.value, hb.value);
    }

    /** The two brelses of a turn. */
    method ReleaseBoth(a: nat, b: nat)
      requires Valid() && a < NBUF && b < NBUF && a != b && a !in dirty && b !in dirty && buf[a].locked && buf[b].locked
      modifies `buf, `users, `order, `last, `clock
      ensures Valid() && forall x :: x in disk ==> View(Abs(), x) == old(View(Abs(), x))
      ensures Released(old(Abs()), Abs(), {a, b})
    {
      hide ListOk, UniqueOk, DataOk, OverOk, LruOk, CountsOk, View, LeastRecent, MadeRecent;
      Brelse(a);
      Brelse(b);
    }

    /** memmove and bwrite. */
    method WriteBuf(b: nat, d: Data)
      requires Valid() && b < NBUF && buf[b].locked && buf[b].valid && buf[b].key.dev != 0
      modifies `buf, `disk, `over, `holder, `dirty
      ensures Valid() && disk == old(disk)[buf[b].key := d] && buf[b].key !in over && dirty == old(dirty) - {b}
      ensures forall x :: x in disk ==> View(Abs(), x) == if x == buf[b].key then d else old(View(Abs(), x))
      ensures forall c: nat :: c < NBUF ==>
                buf[c].key == old(buf[c].key) && buf[c].valid == old(buf[c].valid)
                    && buf[c].locked == old(buf[c].locked)
    {
      hide ListOk, UniqueOk, DataOk, OverOk, LruOk, CountsOk, View;
      Modify(b, d);
      Bwrite(b);
    }

    /** One turn of write_log: the log block gets the contents of the home block. */
    method WriteLogTurn(logged: Key, home: Key)
      requires Valid() && logged.dev != 0 && home.dev != 0 && logged in disk && home in disk && logged != home
      requires Idle(Abs(), logged) && Idle(Abs(), home) && Claims(Abs()) < NBUF && Pinned(Abs(), home)
      modifies `buf, `users, `order, `last, `clock, `disk, `over, `holder, `dirty
      ensures Valid() && Undisturbed(old(Abs()), Abs()) && disk == old(disk)[logged := old(View(Abs(), home))]
      ensures forall x :: x in disk ==> View(Abs(), x) == old(View(Abs(), if x == logged then home else x))
      ensures forall k :: old(Pinned(Abs(), k)) <==> Pinned(Abs(), k)
    {
      hide ListOk, UniqueOk, DataOk, OverOk, LruOk, CountsOk, View, LeastRecent, MadeRecent, Pinned, Undisturbed;
      var lb, hb := CommitReads(logged, home);
      var l, h := lb.value, hb.value;
      ghost var s := Abs();
      WriteBuf(l, buf[h].data);
      ghost var t := Abs();
      ReleaseBoth(h, l);
      KeysKeepPins(s, Abs());
      GaveBack(old(Abs()), s, t, Abs(), {l, h});
    }

    /** write_log: every log block gets the contents of its home block, and the cache is at rest again. */
    method WriteLog(dev: nat, start: nat, blocks: seq<nat>)
      requires Valid() && dev != 0 && Claims(Abs()) < NBUF
      requires forall i: nat :: i < |blocks| ==> CanCopy(Abs(), dev, start, blocks, i)
      modifies `buf, `users, `order, `last, `clock, `disk, `over, `holder, `dirty
      ensures Valid() && Undisturbed(old(Abs()), Abs()) && disk.Keys == old(disk.Keys)
      ensures forall i: nat :: i < |blocks| ==> CopiedTo(old(Abs()), Abs(), dev, start, blocks, i)
      ensures forall x :: x in disk && !InLog(x, dev, start, |blocks|) ==>
          disk[x] == old(disk[x]) && View(Abs(), x) == old(View(Abs(), x))
      ensures forall k :: old(Pinned(Abs(), k)) <==> Pinned(Abs(), k)
    {
      hide ListOk, UniqueOk, DataOk, OverOk, LruOk, CountsOk, View, Idle, Undisturbed, Held, Pinned;
      ghost var s := Abs();
      UndisturbedAt(s);
      for tail := 0 to |blocks|
        invariant Valid() && Undisturbed(s, Abs()) && disk.Keys == s.disk.Keys && pins == s.pins
        invariant forall i: nat :: i < tail ==> CopiedTo(s, Abs(), dev, start, blocks, i)
        invariant forall x :: x in disk && !InLog(x, dev, start, tail) ==>
            disk[x] == s.disk[x] && View(Abs(), x) == View(s, x)
        invariant forall k :: Pinned(s, k) <==> Pinned(Abs(), k)
      {
        var home := Key(dev, blocks[tail]);
        assert CanCopy(s, dev, start, blocks, tail);
        assert home in disk && View(Abs(), home) == View(s, home);
        ghost var was := Abs();
        Unhindered(s, was, Key(dev, start + 1 + tail), home);
        WriteLogTurn(Key(dev, start + 1 + tail), home);
        UndisturbedSteps(s, was, Abs());
        forall i: nat | i < tail + 1 ensures CopiedTo(s, Abs(), dev, start, blocks, i) {
          if i < tail { assert CopiedTo(s, was, dev, start, blocks, i); }
        }
      }
    }

    /** One turn of install_trans: the home block gets the contents of the log block, and is unpinned. */
    method InstallTurn(logged: Key, home: Key, recovering: bool)
      requires Valid() && logged.dev != 0 && home.dev != 0 && logged in disk && home in disk && logged != home
      requires Idle(Abs(), logged) && Idle(Abs(), home)
      requires if recovering then Claims(Abs()) + 1 < NBUF else Claims(Abs()) < NBUF && Pinned(Abs(), home)
      modifies `buf, `users, `order, `last, `clock, `disk, `over, `holder, `dirty, `pins
      ensures Valid() && Undisturbed(old(Abs()), Abs()) && disk == old(disk)[home := old(View(Abs(), logged))]
      ensures pins <= old(pins)
      ensures forall x :: x in disk ==> View(Abs(), x) == old(View(Abs(), if x == home then logged else x))
      ensures forall k :: Pinned(Abs(), k) <==> old(Pinned(Abs(), k)) && (recovering || k != home)
    {
      hide ListOk, UniqueOk, DataOk, OverOk, LruOk, CountsOk, View, LeastRecent, MadeRecent, Pinned, Undisturbed;
      var lb, hb := CommitReads(logged, home);
      var l, h := lb.value, hb.value;
      ghost var s := Abs();
      PinnedBuffer(s, h, home);
      WriteBuf(h, buf[l].data);
      if !recovering {
        Bunpin(h);
      }
      ghost var t := Abs();
      ReleaseBoth(l, h);
      if recovering { KeysKeepPins(s, Abs()); } else { UnpinnedOne(s, Abs(), h); }
      GaveBack(old(Abs()), s, t, Abs(), {l, h});
    }

    /**
     install_trans: every home block gets the contents of its log block, and in a commit, not in recovery,
     its pin goes.
     */
    method InstallTrans(dev: nat, start: nat, blocks: seq<nat>, recovering: bool)
      requires Valid() && dev != 0 && Claims(Abs()) < if recovering then NBUF - 1 else NBUF
      requires forall i: nat :: i < |blocks| ==> CanInstall(Abs(), dev, start, blocks, i, recovering)
      modifies `buf, `users, `order, `last, `clock, `disk, `over, `holder, `dirty, `pins
      ensures Valid() && Undisturbed(old(Abs()), Abs()) && disk.Keys == old(disk.Keys) && pins <= old(pins)
      ensures forall i: nat :: i < |blocks| ==> InstalledAt(old(Abs()), Abs(), dev, start, blocks, i)
      ensures forall x :: x in disk && !InHome(x, dev, blocks, |blocks|)
                ==> disk[x] == old(disk[x]) && View(Abs(), x) == old(View(Abs(), x))
      ensures forall k :: Pinned(Abs(), k) <==>
          old(Pinned(Abs(), k)) && (recovering || !InHome(k, dev, blocks, |blocks|))
    {
      hide ListOk, UniqueOk, DataOk, OverOk, LruOk, CountsOk, View, Idle, Undisturbed, Held, Pinned, InHome;
      ghost var s := Abs();
      UndisturbedAt(s);
      NoneHome(dev, blocks);
      for tail := 0 to |blocks|
        invariant Valid() && Undisturbed(s, Abs()) && disk.Keys == s.disk.Keys && pins <= s.pins
        invariant forall i: nat :: i < tail ==> InstalledAt(s, Abs(), dev, start, blocks, i)
        invariant forall x :: x in disk && !InHome(x, dev, blocks, tail) ==>
            disk[x] == s.disk[x] && View(Abs(), x) == View(s, x)
        invariant forall k :: Pinned(Abs(), k) <==> Pinned(s, k) && (recovering || !InHome(k, dev, blocks, tail))
      {
        var logged, home := Key(dev, start + 1 + tail), Key(dev, blocks[tail]);
        assert CanInstall(s, dev, start, blocks, tail, recovering);
        NotYetHome(s, dev, start, blocks, tail, recovering);
        ghost var was := Abs();
        Unhindered(s, was, logged, home);
        InstallTurn(logged, home, recovering);
        UndisturbedSteps(s, was, Abs());
        HomeNext(dev, blocks, tail);
        forall i: nat | i < tail + 1 ensures InstalledAt(s, Abs(), dev, start, blocks, i) {
          if i < tail { assert InstalledAt(s, was, dev, start, blocks, i); }
        }
      }
    }

    /** write_head: the block of the log header gets the header. */
    method WriteHead(head: Key, d: Data)
      requires Valid() && head.dev != 0 && head in disk && Idle(Abs(), head) && Claims(Abs()) < NBUF
      modifies `buf, `users, `order, `last, `clock, `disk, `over, `holder, `dirty
      ensures Valid() && Undisturbed(old(Abs()), Abs()) && disk == old(disk)[head := d]
      ensures forall x :: x in disk ==> View(Abs(), x) == if x == head then d else old(View(Abs(), x))
      ensures forall k :: old(Pinned(Abs(), k)) <==> Pinned(Abs(), k)
    {
      hide ListOk, UniqueOk, DataOk, OverOk, LruOk, CountsOk, View, LeastRecent, MadeRecent, Pinned, Undisturbed,
          Took, Released, Held;
      ghost var s := Abs();
      RoomLeft(s);
      var b := Bread(head);
      Referenced(s, b.value);
      ghost var t := Abs();
      TookOne(s, t, b.value);
      PinsStay(s, t, b.value);
      WriteBuf(b.value, d);
      ghost var u := Abs();
      Brelse(b.value);
      ReleasedOne(u, Abs(), b.value);
      KeysKeepPins(t, Abs());
      GaveBack(s, t, u, Abs(), {b.value});
    }

    /** write_log and then write_head. */
    method LogAll(dev: nat, start: nat, blocks: seq<nat>, full: Data)
      requires Valid() && dev != 0 && Key(dev, start) in disk && Idle(Abs(), Key(dev, start)) && Claims(Abs()) < NBUF
      requires forall i: nat :: i < |blocks| ==> CanInstall(Abs(), dev, start, blocks, i, false)
      modifies `buf, `users, `order, `last, `clock, `disk, `over, `holder, `dirty
      ensures Valid() && Undisturbed(old(Abs()), Abs()) && disk.Keys == old(disk.Keys) && disk[Key(dev, start)] == full
      ensures forall i: nat :: i < |blocks| ==> CopiedTo(old(Abs()), Abs(), dev, start, blocks, i)
      ensures forall x :: x in disk && x != Key(dev, start) && !InLog(x, dev, start, |blocks|)
                ==> disk[x] == old(disk[x]) && View(Abs(), x) == old(View(Abs(), x))
      ensures forall k :: old(Pinned(Abs(), k)) <==> Pinned(Abs(), k)
    {
      hide ListOk, UniqueOk, DataOk, OverOk, LruOk, CountsOk, View, Idle, Undisturbed, Held, Pinned;
      ghost var s := Abs();
      forall i: nat | i < |blocks| ensures CanCopy(s, dev, start, blocks, i) {
        assert CanInstall(s, dev, start, blocks, i, false);
      }
      WriteLog(dev, start, blocks);
      ghost var t := Abs();
      Unhindered(s, t, Key(dev, start), Key(dev, start));
      WriteHead(Key(dev, start), full);
      UndisturbedSteps(s, t, Abs());
      forall i: nat | i < |blocks| ensures CopiedTo(s, Abs(), dev, start, blocks, i) {
        assert CopiedTo(s, t, dev, start, blocks, i);
      }
    }

    /**
     commit, the blocks to commit being those pinned by log_write: readers see every block outside the
     log as before, the blocks named are then on the disk as readers see them and no longer pinned, and
     the header on the disk is the empty one.
     */
    method Commit(dev: nat, start: nat, blocks: seq<nat>, full: Data, empty: Data)
      requires Valid() && dev != 0 && Key(dev, start) in disk && Idle(Abs(), Key(dev, start))
      requires Claims(Abs()) < NBUF && start !in blocks
      requires forall i: nat :: i < |blocks| ==> CanInstall(Abs(), dev, start, blocks, i, false)
      modifies `buf, `users, `order, `last, `clock, `disk, `over, `holder, `dirty, `pins
      ensures Valid() && Undisturbed(old(Abs()), Abs()) && disk.Keys == old(disk.Keys)
      ensures blocks == [] || disk[Key(dev, start)] == empty
      ensures forall x :: x in disk && x != Key(dev, start) && !InLog(x, dev, start, |blocks|)
                ==> View(Abs(), x) == old(View(Abs(), x))
      ensures forall x :: x in disk && InHome(x, dev, blocks, |blocks|) ==> disk[x] == old(View(Abs(), x))
      ensures forall k :: Pinned(Abs(), k) <==> old(Pinned(Abs(), k)) && !InHome(k, dev, blocks, |blocks|)
    {
      hide ListOk, UniqueOk, DataOk, OverOk, LruOk, CountsOk, View, Idle, Undisturbed, Held, Pinned;
      ghost var s := Abs();
      UndisturbedAt(s);
      if |blocks| > 0 {
        LogAll(dev, start, blocks, full);
        ghost var t := Abs();
        StillInstalls(s, t, dev, start, blocks);
        Unhindered(s, t, Key(dev, start), Key(dev, start));
        InstallTrans(dev, start, blocks, false);
        ghost var u := Abs();
        UndisturbedSteps(s, t, u);
        Unhindered(s, u, Key(dev, start), Key(dev, start));
        WriteHead(Key(dev, start), empty);
        UndisturbedSteps(s, u, Abs());
        Through(s, t, u, dev, start, blocks);
      }
    }
  }

  predicate InLog(x: Key, dev: nat, start: nat, n: nat) {
    x.dev == dev && start < x.blockno <= start + n
  }

  /** x is one of the first n blocks named. */
  predicate InHome(x: Key, dev: nat, blocks: seq<nat>, n: nat) {
    x.dev == dev && exists i :: 0 <= i < n && i < |blocks| && blocks[i] == x.blockno
  }

  /** After t, block b holds on the disk and for readers what readers saw in a at s. */
  ghost predicate Copied(s: State, a: Key, t: State, b: Key) {
    a in s.disk && b in t.disk && t.disk[b] == View(t, b) == View(s, a)
  }

  /** Log entry i can be copied home: in a commit its block is still pinned. */
  ghost predicate CanInstall(s: State, dev: nat, start: nat, blocks: seq<nat>, i: nat, recovering: bool) {
    && i < |blocks| && Key(dev, start + 1 + i) in s.disk && Idle(s, Key(dev, start + 1 + i))
    && Key(dev, blocks[i]) in s.disk && Idle(s, Key(dev, blocks[i]))
    && (recovering || Pinned(s, Key(dev, blocks[i]))) && !InLog(Key(dev, blocks[i]), dev, start, |blocks|)
    && forall j :: 0 <= j < i ==> blocks[j] != blocks[i]
  }

  ghost predicate InstalledAt(s: State, t: State, dev: nat, start: nat, blocks: seq<nat>, i: nat) {
    i < |blocks| && Copied(s, Key(dev, start + 1 + i), t, Key(dev, blocks[i]))
  }

  /** Entry i of the log names a block in a pinned buffer, which is outside the log. */
  ghost predicate CanCopy(s: State, dev: nat, start: nat, blocks: seq<nat>, i: nat) {
    && i < |blocks| && Key(dev, start + 1 + i) in s.disk && Idle(s, Key(dev, start + 1 + i))
    && Key(dev, blocks[i]) in s.disk && Idle(s, Key(dev, blocks[i])) && Pinned(s, Key(dev, blocks[i]))
    && !InLog(Key(dev, blocks[i]), dev, start, |blocks|)
  }

  ghost predicate CopiedTo(s: State, t: State, dev: nat, start: nat, blocks: seq<nat>, i: nat) {
    i < |blocks| && Copied(s, Key(dev, blocks[i]), t, Key(dev, start + 1 + i))
  }

  /** b is now the most recently used buffer. */
  ghost predicate MadeRecent(s: State, t: State, b: nat) {
    && Shape(s) && Shape(t) && b < NBUF && |t.order| > 0 && t.order[0] == b && t.clock == s.clock + 1
    && t.last == s.last[b := t.clock]
  }

  lemma NoneHome(dev: nat, blocks: seq<nat>)
    ensures forall x :: !InHome(x, dev, blocks, 0)
  {
  }

  lemma HomeNext(dev: nat, blocks: seq<nat>, n: nat)
    requires n < |blocks|
    ensures forall x :: InHome(x, dev, blocks, n + 1) <==> InHome(x, dev, blocks, n) || x == Key(dev, blocks[n])
  {
    forall x ensures InHome(x, dev, blocks, n + 1) <==> InHome(x, dev, blocks, n) || x == Key(dev, blocks[n]) {
      if x == Key(dev, blocks[n]) { assert 0 <= n < n + 1 && blocks[n] == x.blockno; }
    }
  }

  /** At turn n neither the home block nor the log block of entry n has been written. */
  lemma NotYetHome(s: State, dev: nat, start: nat, blocks: seq<nat>, n: nat, recovering: bool)
    requires n < |blocks| && forall i: nat :: i < |blocks| ==> CanInstall(s, dev, start, blocks, i, recovering)
    ensures !InHome(Key(dev, blocks[n]), dev, blocks, n) && !InHome(Key(dev, start + 1 + n), dev, blocks, n)
  {
    hide Pinned;
    assert CanInstall(s, dev, start, blocks, n, recovering);
    forall i: nat | i < n ensures blocks[i] != start + 1 + n {
      assert CanInstall(s, dev, start, blocks, i, recovering);
    }
  }

  lemma StillInstalls(s: State, t: State, dev: nat, start: nat, blocks: seq<nat>)
    requires Inv(s) && Undisturbed(s, t) && t.pins == s.pins && t.disk.Keys == s.disk.Keys
    requires forall k :: Pinned(s, k) <==> Pinned(t, k)
    requires forall i: nat :: i < |blocks| ==> CanInstall(s, dev, start, blocks, i, false)
    ensures forall i: nat :: i < |blocks| ==> CanInstall(t, dev, start, blocks, i, false)
  {
    hide Pinned, Idle, Undisturbed, Inv;
    forall i: nat | i < |blocks| ensures CanInstall(t, dev, start, blocks, i, false) {
      assert CanInstall(s, dev, start, blocks, i, false);
      Unhindered(s, t, Key(dev, start + 1 + i), Key(dev, blocks[i]));
    }
  }

  /** What a block held at s goes through its log block at t, and is back in it at u. */
  lemma Through(s: State, t: State, u: State, dev: nat, start: nat, blocks: seq<nat>)
    requires forall i: nat :: i < |blocks| ==> CopiedTo(s, t, dev, start, blocks, i)
    requires forall i: nat :: i < |blocks| ==> InstalledAt(t, u, dev, start, blocks, i)
    ensures forall x :: InHome(x, dev, blocks, |blocks|) ==> Copied(s, x, u, x)
  {
    hide View;
    forall x | InHome(x, dev, blocks, |blocks|) ensures Copied(s, x, u, x) {
      var i: nat :| i < |blocks| && blocks[i] == x.blockno;
      assert CopiedTo(s, t, dev, start, blocks, i) && InstalledAt(t, u, dev, start, blocks, i);
    }
  }

  // ---- room for the breads of a commit ----

  /** Nobody has the buffer of block k locked. */
  ghost predicate Idle(s: State, k: Key) {
    forall c: nat :: c < NBUF && c < |s.buf| && s.buf[c].key == k ==> !s.buf[c].locked
  }

  /** How many buffers the log and the holders of references claim. */
  ghost function Claims(s: State): nat {
    |s.pins| + |Held(s)|
  }

  /** Every reference and lock is as before, and no buffer with a reference changed its block. */
  ghost predicate Undisturbed(s: State, t: State) {
    && Shape(s) && Shape(t) && t.users == s.users && t.dirty == s.dirty
    && forall c: nat :: c < NBUF ==>
        t.buf[c].locked == s.buf[c].locked && (s.users[c] > 0 ==> t.buf[c].key == s.buf[c].key)
  }

  /** One reference to each buffer of bs was given back. */
  ghost predicate Released(s: State, t: State, bs: set<nat>) {
    && Shape(s) && Shape(t)
    && forall c: nat :: c < NBUF ==>
        && t.users[c] + (if c in bs then 1 else 0) == s.users[c] && t.buf[c].key == s.buf[c].key
        && t.buf[c].locked == (c !in bs && s.buf[c].locked)
  }

  /** The caller took a reference to each buffer of bs, and nothing else changed for others. */
  ghost predicate Took(s: State, t: State, bs: set<nat>) {
    && Shape(s) && Shape(t) && t.dirty == s.dirty
    && forall c: nat :: c < NBUF ==>
        && t.users[c] == s.users[c] + (if c in bs then 1 else 0)
        && (c in bs ==> !s.buf[c].locked) && (c !in bs ==> t.buf[c].locked == s.buf[c].locked)
        && (s.users[c] > 0 ==> t.buf[c].key == s.buf[c].key)
  }

  /** Block k is in a pinned buffer. */
  ghost predicate Pinned(s: State, k: Key) {
    exists b :: b in s.pins && b < |s.buf| && s.buf[b].key == k
  }

  /** The caller of bread has b, with block k. */
  ghost predicate Reading(s: State, b: nat, k: Key) {
    b < |s.buf| && s.buf[b].key == k && s.buf[b].locked && s.buf[b].valid && b !in s.dirty
  }

  ghost function Held(s: State): set<nat> {
    set b: nat | b < NBUF && b < |s.users| && s.users[b] > 0
  }

  function FirstN(n: nat): set<nat> {
    if n == 0 then {} else FirstN(n - 1) + {n - 1}
  }

  lemma {:induction false} FirstNCard(n: nat)
    ensures |FirstN(n)| == n && forall b: nat :: b in FirstN(n) <==> b < n
  {
    if n > 0 { FirstNCard(n - 1); }
  }

  /** Fewer claims than buffers: one is free to be recycled. */
  lemma RoomLeft(s: State)
    requires Inv(s)
    ensures |s.pins| + |Held(s)| < NBUF ==> exists b: nat :: b < NBUF && s.buf[b].refcnt == 0
  {
    hide ListOk, UniqueOk, DataOk, OverOk, LruOk;
    if forall b: nat :: b < NBUF ==> s.buf[b].refcnt > 0 {
      FirstNCard(NBUF);
      forall b | b in FirstN(NBUF) ensures b in s.pins + Held(s) { assert s.buf[b].refcnt > 0; }
      UnionCard(s.pins, Held(s));
      SubsetCard(FirstN(NBUF), s.pins + Held(s));
    }
  }

  lemma HeldOne(s: State, t: State, b: nat)
    requires b < |s.users| && t.users == s.users[b := s.users[b] + 1] && t.pins == s.pins
    ensures Claims(t) <= Claims(s) + 1
  {
    UnionCard(Held(s), {b});
    SubsetCard(Held(t), Held(s) + {b});
  }

  lemma TookOne(s: State, t: State, b: nat)
    requires Shape(s) && Shape(t) && b < NBUF && t.users == s.users[b := s.users[b] + 1]
    requires t.dirty == s.dirty && !s.buf[b].locked && (s.users[b] > 0 ==> t.buf[b].key == s.buf[b].key)
    requires forall c: nat :: c < NBUF && c != b ==> t.buf[c] == s.buf[c]
    ensures Took(s, t, {b})
  {
  }

  lemma ReleasedOne(s: State, t: State, b: nat)
    requires Shape(s) && Shape(t) && b < NBUF && s.users[b] > 0 && t.users == s.users[b := s.users[b] - 1]
    requires !t.buf[b].locked && forall c: nat :: c < NBUF ==> t.buf[c].key == s.buf[c].key
    requires forall c: nat :: c < NBUF && c != b ==> t.buf[c].locked == s.buf[c].locked
    ensures Released(s, t, {b})
  {
  }

  lemma TookTwo(s: State, t: State, u: State, a: nat, b: nat)
    requires Shape(s) && Shape(t) && Shape(u) && a < NBUF && b < NBUF && a != b
    requires t.users == s.users[a := s.users[a] + 1] && u.users == t.users[b := t.users[b] + 1]
    requires t.dirty == s.dirty && u.dirty == s.dirty && !s.buf[a].locked && !t.buf[b].locked
    requires forall c: nat :: c < NBUF && c != a ==> t.buf[c] == s.buf[c]
    requires forall c: nat :: c < NBUF && c != b ==> u.buf[c] == t.buf[c]
    requires (s.users[a] > 0 ==> t.buf[a].key == s.buf[a].key) && (t.users[b] > 0 ==> u.buf[b].key == t.buf[b].key)
    ensures Took(s, u, {a, b})
  {
  }

  /** Giving back what was taken leaves the others undisturbed. */
  lemma GaveBack(s: State, t: State, u: State, v: State, bs: set<nat>)
    requires Took(s, t, bs) && Shape(u) && u.users == t.users && v.dirty == s.dirty && Released(u, v, bs)
    requires forall c: nat :: c < NBUF ==> u.buf[c].key == t.buf[c].key && u.buf[c].locked == t.buf[c].locked
    ensures Undisturbed(s, v)
  {
    assert v.users == s.users;
  }

  lemma UndisturbedAt(s: State)
    requires Shape(s)
    ensures Undisturbed(s, s)
  {
  }

  lemma UndisturbedSteps(s: State, t: State, u: State)
    requires Undisturbed(s, t) && Undisturbed(t, u)
    ensures Undisturbed(s, u)
  {
  }

  lemma Unhindered(s: State, t: State, a: Key, b: Key)
    requires Inv(s) && Undisturbed(s, t) && t.pins <= s.pins
    ensures (Idle(s, a) ==> Idle(t, a)) && (Idle(s, b) ==> Idle(t, b)) && Claims(t) <= Claims(s)
  {
    hide ListOk, UniqueOk, DataOk, OverOk, LruOk;
    SubsetCard(t.pins, s.pins);
    assert Held(t) == Held(s);
  }

  lemma PinnedCached(s: State, k: Key)
    requires Inv(s)
    ensures Pinned(s, k) ==> exists b: nat :: b < NBUF && s.buf[b].key == k
  {
    hide ListOk, UniqueOk, DataOk, OverOk, LruOk;
    if Pinned(s, k) {
      var b :| b in s.pins && b < |s.buf| && s.buf[b].key == k;
      assert b < NBUF && s.buf[b].key == k;
    }
  }

  lemma KeysKeepPins(s: State, t: State)
    requires Inv(s) && Shape(t) && t.pins == s.pins && forall c: nat :: c < NBUF ==> t.buf[c].key == s.buf[c].key
    ensures forall k :: Pinned(s, k) <==> Pinned(t, k)
  {
    hide ListOk, UniqueOk, DataOk, OverOk, LruOk;
    PinnedAlike(s, t);
  }

  lemma PinnedAlike(s: State, t: State)
    requires |t.buf| == |s.buf| && t.pins == s.pins
    requires forall c :: c in s.pins && c < |s.buf| ==> t.buf[c].key == s.buf[c].key
    ensures forall k :: Pinned(s, k) <==> Pinned(t, k)
  {
    forall k | Pinned(s, k) ensures Pinned(t, k) {
      var c :| c in s.pins && c < |s.buf| && s.buf[c].key == k;
      assert c in t.pins && t.buf[c].key == k;
    }
    forall k | Pinned(t, k) ensures Pinned(s, k) {
      var c :| c in t.pins && c < |t.buf| && t.buf[c].key == k;
      assert c in s.pins && s.buf[c].key == k;
    }
  }

  /** A pinned buffer keeps its block while others are looked up. */
  lemma PinsStay(s: State, t: State, b: nat)
    requires Inv(s) && b < NBUF && Shape(t) && t.pins == s.pins
    requires (t.buf[b].key == s.buf[b].key || s.buf[b].refcnt == 0)
    requires forall c: nat :: c < NBUF && c != b ==> t.buf[c] == s.buf[c]
    ensures forall k :: Pinned(s, k) <==> Pinned(t, k)
  {
    hide ListOk, UniqueOk, DataOk, OverOk, LruOk;
    PinnedAlike(s, t);
  }

  /** The one buffer of a pinned block is the pinned one. */
  lemma PinnedBuffer(s: State, b: nat, k: Key)
    requires Inv(s) && b < NBUF && s.buf[b].key == k && k.dev != 0
    ensures Pinned(s, k) ==> b in s.pins
  {
    hide ListOk, DataOk, OverOk, LruOk;
    if Pinned(s, k) {
      var c :| c in s.pins && c < |s.buf| && s.buf[c].key == k;
      assert c < NBUF;
    }
  }

  /** Unpinning the one buffer of a block unpins that block. */
  lemma UnpinnedOne(s: State, t: State, b: nat)
    requires Inv(s) && b < NBUF && |t.buf| == |s.buf| && s.buf[b].key.dev != 0 && t.pins == s.pins - {b}
    requires forall c: nat :: c < NBUF ==> t.buf[c].key == s.buf[c].key
    ensures forall k :: Pinned(t, k) <==> Pinned(s, k) && k != s.buf[b].key
  {
    hide ListOk, DataOk, OverOk, LruOk;
    forall k | Pinned(t, k) ensures Pinned(s, k) && k != s.buf[b].key {
      var c :| c in t.pins && c < |t.buf| && t.buf[c].key == k;
      assert c in s.pins && c < NBUF;
    }
    forall k | Pinned(s, k) && k != s.buf[b].key ensures Pinned(t, k) {
      var c :| c in s.pins && c < |s.buf| && s.buf[c].key == k;
      assert c in t.pins && t.buf[c].key == k;
    }
  }

  lemma NotDirty(s: State, b: nat, k: Key)
    requires Inv(s) && b < NBUF && (s.buf[b].key == k ==> !s.buf[b].locked) && (s.buf[b].key != k ==> LeastRecent(s, b))
    ensures b !in s.dirty && !s.buf[b].locked
  {
    hide ListOk, UniqueOk, DataOk, OverOk, LruOk;
  }

  lemma Referenced(s: State, b: nat)
    requires Inv(s) && b < NBUF
    ensures |s.users| == NBUF && (s.buf[b].locked ==> s.users[b] > 0) && s.users[b] <= s.buf[b].refcnt
    ensures b !in s.pins ==> s.users[b] == s.buf[b].refcnt
  {
    hide ListOk, UniqueOk, DataOk, OverOk, LruOk;
  }

  lemma PushCores(buf: seq<Buf>, b: nat, h: nat)
    requires b < NBUF && |buf| == NBUF + 1 && h == buf[HEAD].next < |buf|
    ensures SameCores(buf, PushFront(buf, b))
  {
    hide Core;
    SetCores(buf, b, h);
    SetCores(SetNext(buf, b, h), b, HEAD);
    SetCores(SetPrev(SetNext(buf, b, h), b, HEAD), h, b);
    SetCores(SetPrev(SetPrev(SetNext(buf, b, h), b, HEAD), h, b), HEAD, b);
  }
}
