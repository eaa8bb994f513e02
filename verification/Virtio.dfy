/**
 The disk driver of kernel/virtio_disk.c: descriptors, the available and used rings with their 16-bit
 indices, and the device at the other end. virtio_disk_rw is two critical sections, Submit and Finish,
 with the interrupt handler and the device running in between in any order.
 */
module Virtio {

  const NUM := 8
  const BSIZE := 1024
  const WRAP := 0x1_0000      // uint16
  const NEXT: bv16 := 1       // VRING_DESC_F_NEXT
  const WRITE: bv16 := 2      // VRING_DESC_F_WRITE

  type Data = seq<bv8>
  datatype Addr = Null | Op(i: nat) | BufData(b: nat) | Status(i: nat)
  datatype Desc = Desc(addr: Addr, len: nat, flags: bv16, next: nat)
  datatype Req = Req(write: bool, sector: nat)
  datatype Info = Info(b: int, status: nat)

  /** How far a request has come: in the available ring, with the device, in the used ring, seen by intr. */
  datatype Stage = Queued(k: nat) | Taken | Done(k: nat) | Acked

  /** A request in flight, kept under its first descriptor. */
  datatype Chain = Chain(i1: nat, i2: nat, b: nat, write: bool, sector: nat, stage: Stage)

  /**
   own[d] is the head of the chain descriptor d belongs to, NUM if free. avail and used list every head
   ever put in the rings; the device has taken the first taken of avail, intr has seen the first seen of used.
   */
  datatype State = State(
    free: seq<bool>, desc: seq<Desc>, ops: seq<Req>, info: seq<Info>, availRing: seq<nat>, usedRing: seq<nat>,
    busy: set<nat>, own: seq<nat>, chains: map<nat, Chain>, avail: seq<nat>, used: seq<nat>, taken: nat, seen: nat)

  ghost predicate Shape(s: State) {
    |s.free| == |s.desc| == |s.ops| == |s.info| == |s.availRing| == |s.usedRing| == |s.own| == NUM
  }

  /** Three distinct descriptors, all owned by head h. */
  ghost predicate ChainOk(s: State, h: nat)
    requires Shape(s) && h in s.chains
  {
    var c := s.chains[h];
    && h < NUM && c.i1 < NUM && c.i2 < NUM && h != c.i1 && h != c.i2 && c.i1 != c.i2
    && s.own[h] == s.own[c.i1] == s.own[c.i2] == h
  }

  /** Free descriptors and chains partition 0..NUM-1. */
  ghost predicate PartOk(s: State)
    requires Shape(s)
  {
    && (forall d: nat :: d < NUM ==> (s.free[d] <==> s.own[d] == NUM))
    && (forall d: nat :: d < NUM && s.own[d] != NUM ==>
          s.own[d] in s.chains && (d == s.own[d] || d == s.chains[s.own[d]].i1 || d == s.chains[s.own[d]].i2))
    && (forall h: nat :: h in s.chains ==> ChainOk(s, h))
  }

  /** A free descriptor is blank. */
  ghost predicate BlankOk(s: State)
    requires Shape(s)
  {
    forall d: nat :: d < NUM && s.free[d] ==> s.desc[d] == BLANK
  }

  /** The descriptors of chain h say what the request says. */
  ghost predicate FormatAt(s: State, h: nat)
    requires Shape(s) && h in s.chains
  {
    var c := s.chains[h];
    && h < NUM && c.i1 < NUM && c.i2 < NUM
    && s.desc[h].addr == Op(h) && s.desc[h].len == 16 && s.desc[h].flags == NEXT && s.desc[h].next == c.i1
    && s.desc[c.i1].addr == BufData(c.b) && s.desc[c.i1].len == BSIZE
    && s.desc[c.i1].flags == (if c.write then 0 else WRITE) | NEXT && s.desc[c.i1].next == c.i2
    && s.desc[c.i2].addr == Status(h) && s.desc[c.i2].len == 1 && s.desc[c.i2].flags == WRITE
    && s.ops[h] == Req(c.write, c.sector) && s.info[h].b == c.b
  }

  ghost predicate FormatOk(s: State)
    requires Shape(s)
  {
    forall h: nat :: h in s.chains ==> FormatAt(s, h)
  }

  ghost predicate AvailOk(s: State)
    requires Shape(s)
  {
    && s.taken <= |s.avail|
    && (forall k: nat :: s.taken <= k < |s.avail| ==>
          s.avail[k] in s.chains && s.chains[s.avail[k]].stage == Queued(k) && s.availRing[k % NUM] == s.avail[k])
    && (forall h: nat :: h in s.chains && s.chains[h].stage.Queued? ==>
          s.taken <= s.chains[h].stage.k < |s.avail| && s.avail[s.chains[h].stage.k] == h)
  }

  ghost predicate UsedOk(s: State)
    requires Shape(s)
  {
    && s.seen <= |s.used|
    && (forall k: nat :: s.seen <= k < |s.used| ==>
          s.used[k] in s.chains && s.chains[s.used[k]].stage == Done(k) && s.usedRing[k % NUM] == s.used[k])
    && (forall h: nat :: h in s.chains && s.chains[h].stage.Done? ==>
          s.seen <= s.chains[h].stage.k < |s.used| && s.used[s.chains[h].stage.k] == h)
  }

  /** A buffer is in at most one request, and its disk flag is up until intr has seen the completion. */
  ghost predicate BufOk(s: State)
    requires Shape(s)
  {
    && (forall h: nat :: h in s.chains ==> (s.chains[h].b in s.busy <==> !s.chains[h].stage.Acked?))
    && (forall g: nat, h: nat :: g in s.chains && h in s.chains && g != h ==> s.chains[g].b != s.chains[h].b)
  }

  ghost predicate Inv(s: State) {
    Shape(s) && PartOk(s) && BlankOk(s) && FormatOk(s) && AvailOk(s) && UsedOk(s) && BufOk(s)
  }

  // ---- at most two requests are in flight ----

  ghost function Members(s: State, h: nat): set<nat>
    requires h in s.chains
  {
    {h, s.chains[h].i1, s.chains[h].i2}
  }

  lemma MembersOf(s: State, g: nat, h: nat)
    requires Shape(s) && PartOk(s) && g in s.chains && h in s.chains
    ensures |Members(s, g)| == |Members(s, h)| == 3 && (g != h ==> Members(s, g) !! Members(s, h))
    ensures forall d :: d in Members(s, g) || d in Members(s, h) ==> d < NUM
  {
    assert ChainOk(s, g) && ChainOk(s, h);
  }

  /** Three requests would need nine descriptors. */
  lemma NineOfEight(s: State, f: nat, g: nat, h: nat)
    requires Shape(s) && PartOk(s) && f in s.chains && g in s.chains && h in s.chains
    ensures f == g || f == h || g == h
  {
    hide PartOk, Members;
    MembersOf(s, f, g);
    MembersOf(s, g, h);
    MembersOf(s, f, h);
    if f != g && f != h && g != h {
      var all := Members(s, f) + Members(s, g) + Members(s, h);
      Below(all, NUM);
      assert false;
    }
  }

  lemma {:induction false} Below(a: set<nat>, n: nat)
    requires forall x :: x in a ==> x < n
    ensures |a| <= n
  {
    if n > 0 {
      Below(a - {n - 1}, n - 1);
    } else {
      assert a == {};
    }
  }

  /** No two requests share a descriptor, and at most two are in flight. */
  lemma TwoInFlight(s: State)
    requires Inv(s)
    ensures |s.chains| <= 2
  {
    hide FormatOk, AvailOk, UsedOk, BufOk, PartOk;
    if |s.chains| > 2 {
      var f :| f in s.chains.Keys;
      var rest := s.chains.Keys - {f};
      assert |rest| == |s.chains.Keys| - 1;
      var g :| g in rest;
      assert |rest - {g}| == |rest| - 1;
      var h :| h in rest - {g};
      NineOfEight(s, f, g, h);
    }
  }

  /** So each ring has room for the next entry. */
  lemma RingRoom(s: State)
    requires Inv(s)
    ensures |s.avail| - s.taken <= 2 && |s.used| - s.seen <= 2
  {
    hide FormatOk, BufOk, PartOk;
    if |s.avail| - s.taken > 2 {
      var t := s.taken;
      assert s.chains[s.avail[t]].stage == Queued(t) && s.chains[s.avail[t + 1]].stage == Queued(t + 1)
          && s.chains[s.avail[t + 2]].stage == Queued(t + 2);
      NineOfEight(s, s.avail[t], s.avail[t + 1], s.avail[t + 2]);
    }
    if |s.used| - s.seen > 2 {
      var t := s.seen;
      assert s.chains[s.used[t]].stage == Done(t) && s.chains[s.used[t + 1]].stage == Done(t + 1)
          && s.chains[s.used[t + 2]].stage == Done(t + 2);
      NineOfEight(s, s.used[t], s.used[t + 1], s.used[t + 2]);
    }
  }

  // ---- the steps ----

  /** Free, distinct descriptors, and a buffer no request in flight uses. */
  ghost predicate CanSubmit(s: State, i0: nat, i1: nat, i2: nat, b: nat) {
    && Inv(s) && i0 < NUM && i1 < NUM && i2 < NUM && i0 != i1 && i0 != i2 && i1 != i2
    && s.free[i0] && s.free[i1] && s.free[i2] && forall h: nat :: h in s.chains ==> s.chains[h].b != b
  }

  /** virtio_disk_rw up to its wait. */
  function Submitted(s: State, i0: nat, i1: nat, i2: nat, b: nat, write: bool, sector: nat): State
    requires |s.free| == |s.desc| == |s.ops| == |s.info| == |s.availRing| == |s.own| == NUM && i0 < NUM && i1 < NUM
    requires i2 < NUM
  {
    s.(free := s.free[i0 := false][i1 := false][i2 := false],
    desc := s.desc[i0 := Desc(Op(i0), 16, NEXT, i1)][i1 :=
        Desc(BufData(b), BSIZE, (if write then 0 else WRITE) | NEXT, i2)]
    [i2 := Desc(Status(i0), 1, WRITE, 0)],
    ops := s.ops[i0 := Req(write, sector)],
    info := s.info[i0 := Info(b, 0xff)],
    availRing := s.availRing[|s.avail| % NUM := i0],
    busy := s.busy + {b},
    own := s.own[i0 := i0][i1 := i0][i2 := i0],
    chains := s.chains[i0 := Chain(i1, i2, b, write, sector, Queued(|s.avail|))],
    avail := s.avail + [i0])
  }

  function SetStage(s: State, h: nat, x: Stage): State
    requires h in s.chains
  {
    s.(chains := s.chains[h := s.chains[h].(stage := x)])
  }

  /** The device takes the next entry of the available ring. */
  function Fetched(s: State): State
    requires s.taken < |s.avail| && s.avail[s.taken] in s.chains
  {
    SetStage(s, s.avail[s.taken], Taken).(taken := s.taken + 1)
  }

  /** The device reports request h in the used ring. */
  function Completed(s: State, h: nat, status: nat): State
    requires h in s.chains && h < |s.info| && |s.usedRing| == NUM
  {
    SetStage(s, h, Done(|s.used|)).(usedRing := s.usedRing[|s.used| % NUM := h], used := s.used + [h],
        info := s.info[h := s.info[h].(status := status)])
  }

  /** The interrupt handler sees the next entry of the used ring. */
  function Noticed(s: State): State
    requires s.seen < |s.used| && s.used[s.seen] in s.chains
  {
    var h := s.used[s.seen];
    SetStage(s, h, Acked).(busy := s.busy - {s.chains[h].b}, seen := s.seen + 1)
  }

  const BLANK := Desc(Null, 0, 0, 0)

  /** virtio_disk_rw after its wait. */
  function Finished(s: State, h: nat): State
    requires h in s.chains && |s.free| == |s.desc| == |s.info| == |s.own| == NUM
    requires h < NUM && s.chains[h].i1 < NUM && s.chains[h].i2 < NUM
  {
    var i1, i2 := s.chains[h].i1, s.chains[h].i2;
    s.(free := s.free[h := true][i1 := true][i2 := true],
    desc := s.desc[h := BLANK][i1 := BLANK][i2 := BLANK],
    info := s.info[h := s.info[h].(b := -1)],
    own := s.own[h := NUM][i1 := NUM][i2 := NUM],
    chains := s.chains - {h})
  }

  // ---- each step keeps the invariant ----

  /** A descriptor of one chain is none of another's, nor free. */
  lemma Apart(s: State, g: nat, d: nat)
    requires Shape(s) && PartOk(s) && g in s.chains && d < NUM && s.own[d] != g
    ensures g < NUM && d != g && d != s.chains[g].i1 && d != s.chains[g].i2
  {
    assert ChainOk(s, g);
  }

  lemma SubmittedInv(s: State, i0: nat, i1: nat, i2: nat, b: nat, write: bool, sector: nat)
    requires CanSubmit(s, i0, i1, i2, b)
    ensures Inv(Submitted(s, i0, i1, i2, b, write, sector))
  {
    hide PartOk, FormatOk, AvailOk, UsedOk, BufOk;
    var t := Submitted(s, i0, i1, i2, b, write, sector);
    NewHead(s, i0);
    SubmittedPart(s, i0, i1, i2, b, write, sector);
    SubmittedFormat(s, i0, i1, i2, b, write, sector);
    SubmittedRings(s, i0, i1, i2, b, write, sector);
    SubmittedBufs(s, i0, i1, i2, b, write, sector);
  }

  lemma NewHead(s: State, i0: nat)
    requires Shape(s) && PartOk(s) && i0 < NUM && s.free[i0]
    ensures i0 !in s.chains && s.own[i0] == NUM
  {
    forall h: nat | h in s.chains ensures h < NUM && s.own[h] == h { assert ChainOk(s, h); }
  }

  lemma NewHeadIn(s: State, i0: nat)
    requires Inv(s) && i0 < NUM && Shape(s) && s.free[i0]
    ensures i0 !in s.chains
  {
    hide BlankOk, FormatOk, AvailOk, UsedOk, BufOk;
    NewHead(s, i0);
  }

  /** A chain already in flight keeps its descriptors and what they say. */
  lemma SubmittedAt(s: State, i0: nat, i1: nat, i2: nat, b: nat, write: bool, sector: nat, h: nat)
    requires CanSubmit(s, i0, i1, i2, b) && h in s.chains && h != i0
    ensures Shape(Submitted(s, i0, i1, i2, b, write, sector))
    ensures ChainOk(Submitted(s, i0, i1, i2, b, write, sector), h)
    ensures FormatAt(Submitted(s, i0, i1, i2, b, write, sector), h)
  {
    hide PartOk, FormatOk, AvailOk, UsedOk, BufOk;
    InFlight(s, h);
    NewHead(s, i0);
    NewHead(s, i1);
    NewHead(s, i2);
    Apart(s, h, i0);
    Apart(s, h, i1);
    Apart(s, h, i2);
  }

  lemma InFlight(s: State, h: nat)
    requires Shape(s) && PartOk(s) && FormatOk(s) && h in s.chains
    ensures ChainOk(s, h) && FormatAt(s, h)
  {
  }

  lemma HeadFacts(s: State, h: nat)
    requires Inv(s) && h in s.chains
    ensures Shape(s) && h < NUM && s.info[h].b == s.chains[h].b
  {
    hide PartOk, BlankOk, FormatOk, AvailOk, UsedOk, BufOk, ChainOk;
    InFlight(s, h);
  }

  lemma SubmittedPart(s: State, i0: nat, i1: nat, i2: nat, b: nat, write: bool, sector: nat)
    requires CanSubmit(s, i0, i1, i2, b)
    ensures Shape(Submitted(s, i0, i1, i2, b, write, sector)) && PartOk(Submitted(s, i0, i1, i2, b, write, sector))
  {
    hide FormatOk, AvailOk, UsedOk, BufOk, FormatAt, ChainOk;
    var t := Submitted(s, i0, i1, i2, b, write, sector);
    NewHead(s, i0);
    forall h: nat | h in t.chains ensures ChainOk(t, h) {
      if h != i0 {
        SubmittedAt(s, i0, i1, i2, b, write, sector, h);
      } else {
        NewChain(s, i0, i1, i2, b, write, sector);
      }
    }
  }

  lemma NewChain(s: State, i0: nat, i1: nat, i2: nat, b: nat, write: bool, sector: nat)
    requires CanSubmit(s, i0, i1, i2, b)
    ensures Shape(Submitted(s, i0, i1, i2, b, write, sector))
    ensures ChainOk(Submitted(s, i0, i1, i2, b, write, sector), i0)
    ensures FormatAt(Submitted(s, i0, i1, i2, b, write, sector), i0)
  {
    hide PartOk, FormatOk, AvailOk, UsedOk, BufOk;
  }

  lemma SubmittedFormat(s: State, i0: nat, i1: nat, i2: nat, b: nat, write: bool, sector: nat)
    requires CanSubmit(s, i0, i1, i2, b)
    ensures Shape(Submitted(s, i0, i1, i2, b, write, sector)) && FormatOk(Submitted(s, i0, i1, i2, b, write, sector))
  {
    hide PartOk, AvailOk, UsedOk, BufOk, FormatAt, ChainOk;
    var t := Submitted(s, i0, i1, i2, b, write, sector);
    forall h: nat | h in t.chains ensures FormatAt(t, h) {
      if h != i0 {
        SubmittedAt(s, i0, i1, i2, b, write, sector, h);
      } else {
        NewChain(s, i0, i1, i2, b, write, sector);
      }
    }
  }

  lemma SubmittedRings(s: State, i0: nat, i1: nat, i2: nat, b: nat, write: bool, sector: nat)
    requires CanSubmit(s, i0, i1, i2, b)
    ensures Shape(Submitted(s, i0, i1, i2, b, write, sector)) && AvailOk(Submitted(s, i0, i1, i2, b, write, sector))
    ensures UsedOk(Submitted(s, i0, i1, i2, b, write, sector))
  {
    hide PartOk, FormatOk, BufOk, AvailOk, UsedOk;
    NewHead(s, i0);
    RingRoom(s);
    var t := Submitted(s, i0, i1, i2, b, write, sector);
    SubmittedAvail(s, t, i0);
    SubmittedUsed(s, t, i0);
  }

  lemma SubmittedAvail(s: State, t: State, i0: nat)
    requires Shape(s) && Shape(t) && AvailOk(s) && |s.avail| - s.taken <= 2 && i0 !in s.chains && t.taken == s.taken
    requires i0 in t.chains && t.chains == s.chains[i0 := t.chains[i0]] && t.chains[i0].stage == Queued(|s.avail|)
    requires t.avail == s.avail + [i0] && t.availRing == s.availRing[|s.avail| % NUM := i0]
    ensures AvailOk(t)
  {
  }

  lemma SubmittedUsed(s: State, t: State, i0: nat)
    requires Shape(s) && Shape(t) && UsedOk(s) && i0 !in s.chains && t.seen == s.seen && t.used == s.used
    requires t.usedRing == s.usedRing
    requires i0 in t.chains && t.chains == s.chains[i0 := t.chains[i0]] && t.chains[i0].stage.Queued?
    ensures UsedOk(t)
  {
  }

  lemma SubmittedBufs(s: State, i0: nat, i1: nat, i2: nat, b: nat, write: bool, sector: nat)
    requires CanSubmit(s, i0, i1, i2, b)
    ensures Shape(Submitted(s, i0, i1, i2, b, write, sector)) && BufOk(Submitted(s, i0, i1, i2, b, write, sector))
  {
    hide PartOk, FormatOk, AvailOk, UsedOk;
    NewHead(s, i0);
  }

  /** A change of stage leaves descriptors and buffers alone. */
  lemma StageKeeps(s: State, t: State, h: nat)
    requires Shape(s) && Shape(t) && PartOk(s) && FormatOk(s) && h in s.chains
    requires t.free == s.free && t.desc == s.desc && t.ops == s.ops && t.own == s.own
    requires h in t.chains && t.chains == s.chains[h := s.chains[h].(stage := t.chains[h].stage)]
    requires forall g: nat :: g < NUM ==> t.info[g].b == s.info[g].b
    ensures PartOk(t) && FormatOk(t)
  {
    forall g: nat | g in t.chains ensures ChainOk(t, g) && FormatAt(t, g) { assert ChainOk(s, g) && FormatAt(s, g); }
  }

  lemma FetchedInv(s: State)
    requires Inv(s) && s.taken < |s.avail|
    ensures s.avail[s.taken] in s.chains && s.availRing[s.taken % NUM] == s.avail[s.taken] && Inv(Fetched(s))
  {
    hide PartOk, FormatOk, UsedOk, BufOk, AvailOk;
    FetchedAvail(s);
    var t := Fetched(s);
    StageKeeps(s, t, s.avail[s.taken]);
    StageAway(s, t, s.avail[s.taken]);
  }

  lemma FetchedAvail(s: State)
    requires Shape(s) && AvailOk(s) && s.taken < |s.avail|
    ensures s.avail[s.taken] in s.chains && s.availRing[s.taken % NUM] == s.avail[s.taken]
    ensures s.chains[s.avail[s.taken]].stage.Queued?
    ensures Shape(Fetched(s)) && AvailOk(Fetched(s))
  {
  }

  /** A change of stage that neither enters nor leaves the used ring, nor is seen by the handler. */
  lemma StageAway(s: State, t: State, h: nat)
    requires Shape(s) && Shape(t) && UsedOk(s) && BufOk(s) && h in s.chains && !s.chains[h].stage.Done?
    requires !s.chains[h].stage.Acked?
    requires h in t.chains && t.chains == s.chains[h := s.chains[h].(stage := Taken)]
    requires t.busy == s.busy && t.used == s.used && t.usedRing == s.usedRing && t.seen == s.seen
    ensures UsedOk(t) && BufOk(t)
  {
  }

  lemma CompletedInv(s: State, h: nat, status: nat)
    requires Inv(s) && h in s.chains && s.chains[h].stage.Taken?
    ensures h < NUM && Inv(Completed(s, h, status))
  {
    hide PartOk, FormatOk, UsedOk, AvailOk, BufOk;
    HeadLow(s, h);
    RingRoom(s);
    StageKeeps(s, Completed(s, h, status), h);
    CompletedUsed(s, h, status);
    CompletedAway(s, h, status);
  }

  lemma CompletedAway(s: State, h: nat, status: nat)
    requires Shape(s) && AvailOk(s) && BufOk(s) && h < NUM && h in s.chains && s.chains[h].stage.Taken?
    ensures Shape(Completed(s, h, status)) && AvailOk(Completed(s, h, status)) && BufOk(Completed(s, h, status))
  {
  }

  lemma CompletedUsed(s: State, h: nat, status: nat)
    requires Shape(s) && UsedOk(s) && |s.used| - s.seen <= 2 && h < NUM && h in s.chains && s.chains[h].stage.Taken?
    ensures Shape(Completed(s, h, status)) && UsedOk(Completed(s, h, status))
  {
  }

  lemma HeadLow(s: State, h: nat)
    requires Shape(s) && PartOk(s) && h in s.chains
    ensures h < NUM && s.chains[h].i1 < NUM && s.chains[h].i2 < NUM
  {
    assert ChainOk(s, h);
  }

  lemma NoticedInv(s: State)
    requires Inv(s) && s.seen < |s.used|
    ensures s.used[s.seen] in s.chains && s.usedRing[s.seen % NUM] == s.used[s.seen] && Inv(Noticed(s))
  {
    hide PartOk, FormatOk, AvailOk, BufOk, UsedOk;
    NoticedUsed(s);
    StageKeeps(s, Noticed(s), s.used[s.seen]);
    NoticedAway(s);
  }

  lemma NoticedUsed(s: State)
    requires Shape(s) && UsedOk(s) && s.seen < |s.used|
    ensures s.used[s.seen] in s.chains && s.usedRing[s.seen % NUM] == s.used[s.seen]
    ensures s.chains[s.used[s.seen]].stage == Done(s.seen)
    ensures Shape(Noticed(s)) && UsedOk(Noticed(s))
  {
  }

  lemma NoticedAway(s: State)
    requires Shape(s) && AvailOk(s) && BufOk(s) && s.seen < |s.used| && s.used[s.seen] in s.chains
    requires s.chains[s.used[s.seen]].stage.Done?
    ensures Shape(Noticed(s)) && AvailOk(Noticed(s)) && BufOk(Noticed(s))
  {
  }

  lemma FinishedInv(s: State, h: nat)
    requires Inv(s) && h in s.chains && s.chains[h].stage.Acked?
    ensures h < NUM && s.chains[h].i1 < NUM && s.chains[h].i2 < NUM && Inv(Finished(s, h))
  {
    hide PartOk, FormatOk;
    HeadLow(s, h);
    FinishedPart(s, h);
  }

  lemma FinishedPart(s: State, h: nat)
    requires Shape(s) && PartOk(s) && FormatOk(s) && h in s.chains && h < NUM && s.chains[h].i1 < NUM
    requires s.chains[h].i2 < NUM
    ensures Shape(Finished(s, h)) && PartOk(Finished(s, h)) && FormatOk(Finished(s, h))
  {
    hide ChainOk, FormatAt;
    var t := Finished(s, h);
    HeadOwns(s, h);
    forall g: nat | g in t.chains ensures ChainOk(t, g) && FormatAt(t, g) { FinishedAt(s, h, g); }
  }

  lemma NotFree(s: State, h: nat)
    requires Shape(s) && PartOk(s) && h in s.chains
    ensures ChainOk(s, h) && !s.free[h] && !s.free[s.chains[h].i1] && !s.free[s.chains[h].i2]
  {
    assert ChainOk(s, h);
  }

  /** What free_chain finds: three descriptors in use, linked by NEXT flags up to the last. */
  lemma ChainFacts(s: State, h: nat)
    requires Inv(s) && h in s.chains
    ensures var c := s.chains[h];
            && Shape(s) && h < NUM && c.i1 < NUM && c.i2 < NUM && h != c.i1 && h != c.i2 && c.i1 != c.i2
            && !s.free[h] && !s.free[c.i1] && !s.free[c.i2] && s.desc[h].next == c.i1 && s.desc[c.i1].next == c.i2
            && s.desc[h].flags & NEXT != 0 && s.desc[c.i1].flags & NEXT != 0 && s.desc[c.i2].flags & NEXT == 0
  {
    hide PartOk, BlankOk, FormatOk, AvailOk, UsedOk, BufOk;
    InFlight(s, h);
    NotFree(s, h);
    FlagsSay(s.chains[h].write);
  }

  lemma HeadOwns(s: State, h: nat)
    requires Shape(s) && PartOk(s) && h in s.chains
    ensures h < NUM && s.chains[h].i1 < NUM && s.chains[h].i2 < NUM
    ensures s.own[h] == s.own[s.chains[h].i1] == s.own[s.chains[h].i2] == h
  {
    assert ChainOk(s, h);
  }

  lemma FinishedAt(s: State, h: nat, g: nat)
    requires Shape(s) && PartOk(s) && FormatOk(s) && h in s.chains && h < NUM && s.chains[h].i1 < NUM
    requires s.chains[h].i2 < NUM
    requires g in s.chains && g != h
    ensures Shape(Finished(s, h)) && ChainOk(Finished(s, h), g) && FormatAt(Finished(s, h), g)
  {
    hide PartOk, FormatOk;
    HeadOwns(s, h);
    InFlight(s, g);
    Apart(s, g, h);
    Apart(s, g, s.chains[h].i1);
    Apart(s, g, s.chains[h].i2);
  }

  // ---- the driver and the device ----

  lemma SameSlot(k: nat)
    ensures k % WRAP % NUM == k % NUM
  {
  }

  /** 16-bit indices at most two apart tell whether anything is pending. */
  lemma Pending(k: nat, n: nat)
    requires k <= n <= k + 2
    ensures k % WRAP == n % WRAP <==> k == n
  {
  }

  class Disk {
    var free: seq<bool>
    var desc: seq<Desc>
    var ops: seq<Req>
    var info: seq<Info>
    var availRing: seq<nat>
    var availIdx: nat
    var usedRing: seq<nat>
    var usedIdx: nat           // used->idx, written by the device
    var seenIdx: nat           // disk.used_idx
    var devIdx: nat            // how far the device has read the available ring
    var busy: set<nat>         // buffers whose disk flag is set
    var data: map<nat, Data>   // buffer contents
    var blocks: map<nat, Data> // disk contents, by first sector
    ghost var own: seq<nat>
    ghost var chains: map<nat, Chain>
    ghost var avail: seq<nat>
    ghost var used: seq<nat>
    ghost var taken: nat
    ghost var seen: nat

    ghost function Abs(): State
      reads this
    {
      State(free, desc, ops, info, availRing, usedRing, busy, own, chains, avail, used, taken, seen)
    }

    ghost predicate Valid()
      reads this
    {
      Inv(Abs()) && Indexed()
    }

    /** The 16-bit indices are what is left of the counts. */
    ghost predicate Indexed()
      reads this
    {
      availIdx == |avail| % WRAP && devIdx == taken % WRAP && usedIdx == |used| % WRAP && seenIdx == seen % WRAP
    }

    /** virtio_disk_init. */
    constructor (d: map<nat, Data>, b: map<nat, Data>)
      ensures Valid() && chains == map[] && (forall i: nat :: i < NUM ==> free[i]) && data == d && blocks == b
      ensures busy == {}
    {
      free := seq(NUM, _ => true);
      desc := seq(NUM, _ => BLANK);
      ops := seq(NUM, _ => Req(false, 0));
      info := seq(NUM, _ => Info(-1, 0));
      availRing, usedRing := seq(NUM, _ => 0), seq(NUM, _ => 0);
      availIdx, usedIdx, seenIdx, devIdx, busy, data, blocks := 0, 0, 0, 0, {}, d, b;
      own, chains, avail, used, taken, seen := seq(NUM, _ => NUM), map[], [], [], 0, 0;
    }

    /** The lowest free descriptor, no longer free; -1 if there is none. */
    method AllocDesc() returns (r: int)
      requires |free| == NUM
      modifies `free
      ensures -1 <= r < NUM
      ensures r == -1 ==> free == old(free) && forall d: nat :: d < NUM ==> !free[d]
      ensures r >= 0 ==> old(free[r]) && free == old(free)[r := false] && forall d: nat :: d < r ==> !free[d]
    {
      var i := 0;
      while i < NUM
        invariant 0 <= i <= NUM && free == old(free) && forall d: nat :: d < i ==> !free[d]
      {
        if free[i] {
          free := free[i := false];
          return i;
        }
        i := i + 1;
      }
      return -1;
    }

    /** False is a panic. */
    method FreeDesc(i: nat) returns (ok: bool)
      requires |free| == |desc| == NUM
      modifies `free, `desc
      ensures ok <==> i < NUM && !old(free[i])
      ensures ok ==> free == old(free)[i := true] && desc == old(desc)[i := BLANK]
      ensures !ok ==> free == old(free) && desc == old(desc)
    {
      if i >= NUM { return false; }
      if free[i] { return false; }
      desc := desc[i := desc[i].(addr := Null)];
      desc := desc[i := desc[i].(len := 0)];
      desc := desc[i := desc[i].(flags := 0)];
      desc := desc[i := desc[i].(next := 0)];
      free := free[i := true];
      return true;
    }

    /** Three free descriptors, or, with fewer than three free, none. */
    method Alloc3() returns (ok: bool, idx: seq<int>)
      requires |free| == |desc| == NUM && forall d: nat :: d < NUM && free[d] ==> desc[d] == BLANK
      modifies `free, `desc
      ensures desc == old(desc) && (ok <==> exists a: nat, b: nat, c: nat :: Three(old(free), a, b, c))
      ensures ok ==> |idx| == 3 && idx[0] >= 0 && idx[1] >= 0 && idx[2] >= 0 && Three(old(free), idx[0], idx[1], idx[2])
      ensures ok ==> free == old(free)[idx[0] := false][idx[1] := false][idx[2] := false]
      ensures !ok ==> free == old(free)
    {
      idx := [];
      ghost var f := free;
      var i := 0;
      while i < 3
        invariant 0 <= i <= 3 && |idx| == i && desc == old(desc) && Claims(f, free, idx, 0)
      {
        ghost var was := free;
        var r := AllocDesc();
        if r < 0 {
          FewerThanThree(f, idx);
          Rollback(idx, f);
          return false, idx;
        }
        ClaimMore(f, was, free, idx, r);
        idx := idx + [r];
        i := i + 1;
      }
      ThreeClaimed(f, free, idx);
      return true, idx;
    }

    method Rollback(idx: seq<int>, ghost f: seq<bool>)
      requires |f| == |desc| == NUM && Claims(f, free, idx, 0) && forall d: nat :: d < NUM && f[d] ==> desc[d] == BLANK
      modifies `free, `desc
      ensures free == f && desc == old(desc)
    {
      var j := 0;
      while j < |idx|
        invariant 0 <= j <= |idx| && Claims(f, free, idx, j) && desc == old(desc)
      {
        var ok := FreeDesc(idx[j]);
        assert ok;
        j := j + 1;
      }
    }
  
    /**
     virtio_disk_rw for buffer b, up to its wait; false is the wait for free descriptors. The caller
     holds the buffer's lock, so no request in flight uses it.
     */
    method Submit(b: nat, write: bool, blockno: nat) returns (ok: bool, h: nat)
      requires Valid() && blockno < 0x1_0000_0000 && forall g: nat :: g in chains ==> chains[g].b != b
      modifies `free, `desc, `ops, `info, `busy, `availRing, `availIdx, `own, `chains, `avail
      ensures Valid()
      ensures ok <==> exists x: nat, y: nat, z: nat :: Three(old(free), x, y, z)
      ensures !ok ==> Abs() == old(Abs())
      ensures ok ==> h !in old(chains) && h in chains && chains == old(chains)[h := chains[h]]
      ensures ok ==> var c := chains[h];
                     c.b == b && c.write == write && c.sector == blockno * 2 % 0x1_0000_0000
                         && c.stage == Queued(old(|avail|)) && b in busy
    {
      hide Inv, Three, Submitted;
      ghost var s := Abs();
      var sector := blockno * 2 % 0x1_0000_0000;
      BlanksOf(s);
      var idx;
      ok, idx := Alloc3();
      if !ok { return false, 0; }
      ThreeFacts(s.free, idx[0], idx[1], idx[2]);
      Queue(idx[0], idx[1], idx[2], b, write, sector, s);
      return true, idx[0];
    }

    /** The rest of virtio_disk_rw up to its wait, with the three descriptors claimed since s. */
    method Queue(i0: nat, i1: nat, i2: nat, b: nat, write: bool, sector: nat, ghost s: State)
      requires CanSubmit(s, i0, i1, i2, b) && Shape(s)
      requires Abs() == s.(free := s.free[i0 := false][i1 := false][i2 := false])
      requires Indexed()
      modifies `ops, `desc, `info, `busy, `availRing, `availIdx, `own, `chains, `avail
      ensures Valid() && i0 !in s.chains
      ensures chains == s.chains[i0 := Chain(i1, i2, b, write, sector, Queued(|s.avail|))] && b in busy
    {
      hide Inv, Submitted;
      SubmittedInv(s, i0, i1, i2, b, write, sector);
      NewHeadIn(s, i0);
      SubmittedFrame(s, i0, i1, i2, b, write, sector);
      NextIndex(|avail|);
      Issue(i0, i1, i2, b, write, sector, s);
    }

    /** Fill in the three descriptors just claimed, and tell the device. */
    method Issue(i0: nat, i1: nat, i2: nat, b: nat, write: bool, sector: nat, ghost s: State)
      requires Shape(s) && i0 < NUM && i1 < NUM && i2 < NUM && i0 != i1 && i0 != i2 && i1 != i2
      requires Abs() == s.(free := s.free[i0 := false][i1 := false][i2 := false]) && availIdx == |avail| % WRAP
      modifies `ops, `desc, `info, `busy, `availRing, `availIdx, `own, `chains, `avail
      ensures Abs() == Submitted(s, i0, i1, i2, b, write, sector) && availIdx == (old(availIdx) + 1) % WRAP
    {
      SameSlot(|avail|);
      Format(i0, i1, i2, b, write, sector);
      own := own[i0 := i0][i1 := i0][i2 := i0];
      chains := chains[i0 := Chain(i1, i2, b, write, sector, Queued(|avail|))];
      avail := avail + [i0];
    }

    /** Describe the request in three descriptors and put the first in the available ring. */
    method Format(i0: nat, i1: nat, i2: nat, b: nat, write: bool, sector: nat)
      requires |ops| == |desc| == |info| == |availRing| == NUM && i0 < NUM && i1 < NUM && i2 < NUM && i0 != i1
      requires i0 != i2 && i1 != i2
      modifies `ops, `desc, `info, `busy, `availRing, `availIdx
      ensures ops == old(ops)[i0 := Req(write, sector)] && info == old(info)[i0 := Info(b, 0xff)]
      ensures busy == old(busy) + {b}
      ensures desc == old(desc)[i0 := Desc(Op(i0), 16, NEXT, i1)][i1 :=
          Desc(BufData(b), BSIZE, (if write then 0 else WRITE) | NEXT, i2)]
              [i2 := Desc(Status(i0), 1, WRITE, 0)]
      ensures availRing == old(availRing)[old(availIdx) % NUM := i0] && availIdx == (old(availIdx) + 1) % WRAP
    {
      ops := ops[i0 := Req(write, sector)];
      desc := desc[i0 := Desc(Op(i0), 16, NEXT, i1)];
      desc := desc[i1 := Desc(BufData(b), BSIZE, if write then 0 else WRITE, i2)];
      desc := desc[i1 := desc[i1].(flags := desc[i1].flags | NEXT)];
      info := info[i0 := info[i0].(status := 0xff)];
      desc := desc[i2 := Desc(Status(i0), 1, WRITE, 0)];
      busy := busy + {b};
      info := info[i0 := info[i0].(b := b)];
      availRing := availRing[availIdx % NUM := i0];
      availIdx := (availIdx + 1) % WRAP;
    }

    /** The device takes the next head from the available ring, if there is one. */
    method DeviceFetch() returns (r: int)
      requires Valid()
      modifies `devIdx, `chains, `taken
      ensures Valid() && (r == -1 <==> old(taken) == |avail|)
      ensures r == -1 ==> Abs() == old(Abs())
      ensures r != -1 ==> r >= 0 && r == avail[old(taken)] && r in chains && Abs() == Fetched(old(Abs()))
    {
      hide PartOk, FormatOk, AvailOk, UsedOk, BufOk;
      RingRoom(Abs());
      Taking(Abs());
      Pending(taken, |avail|);
      if devIdx == availIdx { return -1; }
      FetchedInv(Abs());
      SameSlot(taken);
      NextIndex(taken);
      var h := availRing[devIdx % NUM];
      devIdx := (devIdx + 1) % WRAP;
      chains := chains[h := chains[h].(stage := Taken)];
      taken := taken + 1;
      return h;
    }

    /** The device carries out the request whose chain starts at h, as its descriptors say, and reports it. */
    method DeviceComplete(h: nat, success: bool)
      requires Valid() && h in chains && chains[h].stage.Taken? && chains[h].b in data && chains[h].sector in blocks
      modifies `usedRing, `usedIdx, `info, `chains, `used, `data, `blocks
      ensures Valid() && Abs() == Completed(old(Abs()), h, if success then 0 else 1)
      ensures var c := old(chains[h]);
              && data == (if success && !c.write then old(data)[c.b := old(blocks)[c.sector]] else old(data))
              && blocks == (if success && c.write then old(blocks)[c.sector := old(data)[c.b]] else old(blocks))
    {
      hide PartOk, BlankOk, FormatOk, AvailOk, UsedOk, BufOk, FormatAt, ChainOk;
      ghost var s := Abs();
      CompletedInv(s, h, if success then 0 else 1);
      InFlight(s, h);
      if success { Transfer(h); }
      Report(h, if success then 0 else 1);
    }

    /** Move the data as the descriptors at h say. */
    method Transfer(h: nat)
      requires Shape(Abs()) && h in chains && FormatAt(Abs(), h) && chains[h].b in data && chains[h].sector in blocks
      modifies `data, `blocks
      ensures data == if chains[h].write then old(data) else old(data)[chains[h].b := old(blocks)[chains[h].sector]]
      ensures blocks == if chains[h].write then old(blocks)[chains[h].sector := old(data)[chains[h].b]] else old(blocks)
    {
      FlagsSay(chains[h].write);
      var req := ops[desc[h].addr.i];
      var d1 := desc[desc[h].next];
      if !req.write && d1.flags & WRITE != 0 && d1.len == BSIZE {
        data := data[d1.addr.b := blocks[req.sector]];
      } else if req.write && d1.flags & WRITE == 0 && d1.len == BSIZE {
        blocks := blocks[req.sector := data[d1.addr.b]];
      }
    }

    /** Write the status byte, and the head into the used ring. */
    method Report(h: nat, status: nat)
      requires Shape(Abs()) && h in chains && FormatAt(Abs(), h) && usedIdx == |used| % WRAP
      modifies `usedRing, `usedIdx, `info, `chains, `used
      ensures Abs() == Completed(old(Abs()), h, status) && usedIdx == |used| % WRAP
    {
      hide FormatAt;
      StatusAt(Abs(), h);
      var d2 := desc[desc[desc[h].next].next];
      info := info[d2.addr.i := info[d2.addr.i].(status := status)];
      chains := chains[h := chains[h].(stage := Done(|used|))];
      PutUsed(h);
    }

    /** Enter h in the used ring. */
    method PutUsed(h: nat)
      requires |usedRing| == NUM && usedIdx == |used| % WRAP
      modifies `usedRing, `usedIdx, `used
      ensures usedRing == old(usedRing)[old(|used|) % NUM := h] && used == old(used) + [h] && usedIdx == |used| % WRAP
    {
      SameSlot(|used|);
      NextIndex(|used|);
      usedRing := usedRing[usedIdx % NUM := h];
      usedIdx := (usedIdx + 1) % WRAP;
      used := used + [h];
    }

    /** One turn of virtio_disk_intr's loop: the buffer that issued the completed request is told. */
    method NoticeNext() returns (fine: bool)
      requires Valid() && seenIdx != usedIdx
      modifies `busy, `seenIdx, `chains, `seen
      ensures Valid() && old(seen) < |used| && used[old(seen)] < NUM && used[old(seen)] in old(chains)
      ensures fine <==> info[used[old(seen)]].status == 0
      ensures Abs() == if fine then Noticed(old(Abs())) else old(Abs())
    {
      hide Inv;
      ghost var t := Abs();
      RingRoom(t);
      Taking(t);
      Pending(seen, |used|);
      NoticedInv(t);
      SameSlot(seen);
      NextIndex(seen);
      HeadFacts(t, t.used[t.seen]);
      var id := usedRing[seenIdx % NUM];
      if info[id].status != 0 {
        return false;
      }
      var b: nat := info[id].b;
      busy := busy - {b};
      chains := chains[id := chains[id].(stage := Acked)];
      seenIdx := (seenIdx + 1) % WRAP;
      seen := seen + 1;
      return true;
    }

    /** virtio_disk_intr; false is the status panic. */
    method Intr() returns (ok: bool)
      requires Valid()
      modifies `busy, `seenIdx, `chains, `seen
      ensures Valid() && used == old(used) && chains.Keys == old(chains).Keys
      ensures ok ==> seen == |used| && forall h: nat :: h in chains ==>
                chains[h] == if old(chains[h].stage.Done?) then old(chains[h]).(stage := Acked) else old(chains[h])
      ensures ok <==> StatusOk(info, used, old(seen), |used|)
      ensures ok ==> busy == old(busy) - old(Told(Abs(), |used|))
    {
      hide PartOk, FormatOk, AvailOk, UsedOk, BufOk;
      ghost var s := Abs();
      Taking(s);
      NoneHandled(s);
      ok := true;
      while seenIdx != usedIdx
        invariant Valid() && old(seen) <= seen <= |used| && used == old(used) && chains.Keys == s.chains.Keys
        invariant Handled(s, Abs()) && StatusOk(info, used, old(seen), seen)
        decreases |used| - seen
      {
        ghost var t := Abs();
        var fine := NoticeNext();
        if !fine { return false; }
        HandledMore(s, t);
      }
      RingRoom(Abs());
      Pending(seen, |used|);
      AllHandled(s, Abs());
    }

    /** virtio_disk_rw after its wait: the request's three descriptors become free, once each. */
    method Finish(h: nat)
      requires Valid() && h in chains && chains[h].stage.Acked?
      modifies `info, `free, `desc, `own, `chains
      ensures Valid() && Abs() == Finished(old(Abs()), h)
    {
      hide Inv;
      ghost var s := Abs();
      FinishedInv(s, h);
      ChainFacts(s, h);
      info := info[h := info[h].(b := -1)];
      FreeChain(h, chains[h].i1, chains[h].i2);
      own := own[h := NUM][s.chains[h].i1 := NUM][s.chains[h].i2 := NUM];
      chains := chains - {h};
    }

    /** free_chain on a chain of three. No panic of free_desc is reached. */
    method FreeChain(h: nat, ghost i1: nat, ghost i2: nat)
      requires |free| == |desc| == NUM && h < NUM && i1 < NUM && i2 < NUM && h != i1 && h != i2 && i1 != i2
      requires !free[h] && !free[i1] && !free[i2] && desc[h].next == i1 && desc[i1].next == i2
      requires desc[h].flags & NEXT != 0 && desc[i1].flags & NEXT != 0 && desc[i2].flags & NEXT == 0
      modifies `free, `desc
      ensures free == old(free)[h := true][i1 := true][i2 := true]
      ensures desc == old(desc)[h := BLANK][i1 := BLANK][i2 := BLANK]
    {
      var i := h;
      var more := true;
      ghost var n := 0;
      while more
        invariant 0 <= n <= 3 && (more <==> n < 3)
        invariant n == 0 ==> i == h && free == old(free) && desc == old(desc)
        invariant n == 1 ==> i == i1 && free == old(free)[h := true] && desc == old(desc)[h := BLANK]
        invariant n == 2 ==> i == i2 && free == old(free)[h := true][i1 := true]
                             && desc == old(desc)[h := BLANK][i1 := BLANK]
        invariant n == 3 ==> free == old(free)[h := true][i1 := true][i2 := true]
                             && desc == old(desc)[h := BLANK][i1 := BLANK][i2 := BLANK]
        decreases 3 - n
      {
        var flag := desc[i].flags;
        var nxt := desc[i].next;
        var ok := FreeDesc(i);
        assert ok;
        if flag & NEXT != 0 { i := nxt; } else { more := false; }
        n := n + 1;
      }
    }
  }

  lemma BlanksOf(s: State)
    requires Inv(s)
    ensures Shape(s) && forall d: nat :: d < NUM && s.free[d] ==> s.desc[d] == BLANK
  {
    hide PartOk, FormatOk, AvailOk, UsedOk, BufOk;
  }

  lemma SubmittedFrame(s: State, i0: nat, i1: nat, i2: nat, b: nat, write: bool, sector: nat)
    requires Shape(s) && i0 < NUM && i1 < NUM && i2 < NUM
    ensures var t := Submitted(s, i0, i1, i2, b, write, sector);
            && i0 in t.chains && t.chains[i0] == Chain(i1, i2, b, write, sector, Queued(|s.avail|))
            && t.chains == s.chains[i0 := t.chains[i0]]
            && b in t.busy && |t.avail| == |s.avail| + 1 && t.taken == s.taken && t.used == s.used && t.seen == s.seen
  {
  }

  lemma ThreeFacts(free: seq<bool>, a: int, b: int, c: int)
    requires Three(free, a, b, c)
    ensures 0 <= a < |free| && 0 <= b < |free| && 0 <= c < |free| && a != b && a != c && b != c && free[a] && free[b]
    ensures free[c]
  {
  }

  /** The third descriptor of a chain says where its status goes. */
  lemma StatusAt(s: State, h: nat)
    requires Shape(s) && h in s.chains && FormatAt(s, h)
    ensures h < NUM && s.desc[h].next < NUM && s.desc[s.desc[h].next].next < NUM
    ensures s.desc[s.desc[s.desc[h].next].next].addr == Status(h)
  {
  }

  lemma NextIndex(k: nat)
    ensures (k % WRAP + 1) % WRAP == (k + 1) % WRAP
  {
  }

  lemma FlagsSay(write: bool)
    ensures (((if write then 0 else WRITE) | NEXT) & WRITE != 0) <==> !write
    ensures ((if write then 0 else WRITE) | NEXT) & NEXT != 0 && WRITE & NEXT == 0 && NEXT & NEXT != 0
  {
  }

  lemma Taking(s: State)
    requires Inv(s)
    ensures s.taken <= |s.avail| && s.seen <= |s.used|
  {
    hide PartOk, FormatOk, BufOk;
  }

  /** The device reported success for entries from..to of the used ring. */
  ghost predicate StatusOk(info: seq<Info>, used: seq<nat>, from: nat, to: nat) {
    forall k: nat :: from <= k < to && k < |used| && used[k] < |info| ==> info[used[k]].status == 0
  }

  /** The buffers of requests reported below the given place in the used ring. */
  ghost function Told(s: State, seen: nat): set<nat> {
    set h | h in s.chains && s.chains[h].stage.Done? && s.chains[h].stage.k < seen :: s.chains[h].b
  }

  /** t is s with the completions below t.seen noticed. */
  ghost predicate Handled(s: State, t: State) {
    && t.chains.Keys == s.chains.Keys && t.used == s.used && t.busy == s.busy - Told(s, t.seen)
    && forall h: nat :: h in s.chains ==>
         t.chains[h] == if s.chains[h].stage.Done? && s.chains[h].stage.k < t.seen then s.chains[h].(stage := Acked)
                         else s.chains[h]
  }

  lemma NoneHandled(s: State)
    requires Inv(s)
    ensures Handled(s, s)
  {
    hide PartOk, FormatOk, AvailOk, BufOk;
  }

  lemma HandledMore(s: State, t: State)
    requires Inv(s) && Inv(t) && Handled(s, t) && s.seen <= t.seen < |t.used| && t.used[t.seen] in t.chains
    ensures Handled(s, Noticed(t))
  {
    hide PartOk, FormatOk, AvailOk, BufOk, Told;
    ToldMore(s, t.seen);
  }

  lemma ToldMore(s: State, k: nat)
    requires Inv(s) && s.seen <= k < |s.used| && s.used[k] in s.chains
    ensures Told(s, k + 1) == Told(s, k) + {s.chains[s.used[k]].b}
  {
    hide PartOk, FormatOk, AvailOk, BufOk;
    assert s.chains[s.used[k]].stage == Done(k);
  }

  lemma AllHandled(s: State, t: State)
    requires Inv(s) && Inv(t) && Handled(s, t) && t.seen == |t.used|
    ensures forall h: nat :: h in t.chains ==>
        t.chains[h] == if s.chains[h].stage.Done? then s.chains[h].(stage := Acked) else s.chains[h]
  {
    hide PartOk, FormatOk, AvailOk;
  }

  /** free is f without the distinct descriptors idx[from..], all of them free in f. */
  ghost predicate Claims(f: seq<bool>, free: seq<bool>, idx: seq<int>, from: nat) {
    && |free| == |f| && from <= |idx|
    && (forall k :: from <= k < |idx| ==> 0 <= idx[k] < |f| && f[idx[k]] && !free[idx[k]])
    && (forall k, l :: 0 <= k < l < |idx| ==> idx[k] != idx[l])
    && (forall d: nat :: d < |f| && free[d] ==> f[d])
    && (forall d: nat :: d < |f| && f[d] && !free[d] ==> d in idx[from..])
  }

  ghost predicate Three(free: seq<bool>, a: int, b: int, c: int) {
    0 <= a < |free| && 0 <= b < |free| && 0 <= c < |free| && a != b && a != c && b != c && free[a] && free[b] && free[c]
  }

  lemma ClaimMore(f: seq<bool>, g: seq<bool>, free: seq<bool>, idx: seq<int>, r: nat)
    requires Claims(f, g, idx, 0) && r < |g| && g[r] && free == g[r := false]
    ensures Claims(f, free, idx + [r], 0)
  {
    var idx' := idx + [r];
    forall d: nat | d < |f| && f[d] && !free[d] ensures d in idx'[0..] {
      if d == r { assert idx'[|idx|] == d; } else { assert d in idx; }
    }
  }

  lemma ThreeClaimed(f: seq<bool>, free: seq<bool>, idx: seq<int>)
    requires Claims(f, free, idx, 0) && |idx| == 3
    ensures Three(f, idx[0], idx[1], idx[2]) && free == f[idx[0] := false][idx[1] := false][idx[2] := false]
  {
    assert idx[0..] == [idx[0], idx[1], idx[2]];
  }

  lemma TwoPlaces(idx: seq<int>, a: int, b: int, c: int)
    requires |idx| <= 2 && a in idx && b in idx && c in idx
    ensures a == b || a == c || b == c
  {
  }

  /** If at most two claims leave nothing free, no three were free. */
  lemma FewerThanThree(f: seq<bool>, idx: seq<int>)
    requires |idx| <= 2 && forall d: nat :: d < |f| && f[d] ==> d in idx
    ensures !exists a: nat, b: nat, c: nat :: Three(f, a, b, c)
  {
    forall a: nat, b: nat, c: nat | a < |f| && b < |f| && c < |f| && f[a] && f[b] && f[c]
      ensures a == b || a == c || b == c
    {
      TwoPlaces(idx, a, b, c);
    }
  }
}
