/**
 The storage allocator of user/umalloc.c (section 8.7 of The C Programming Language, 2nd edition).
 Addresses are byte addresses; a header is UNIT bytes and a block of n units starts with its header.
 */
module Malloc {

  const UNIT := 16               // sizeof(Header)
  const NULL := 0
  const INT_LIMIT := 0x8000_0000

  /** The number of units malloc looks for: the bytes rounded up, plus the header. */
  function UnitsFor(nbytes: nat): (n: nat)
    ensures n >= 1 && (n - 1) * UNIT >= nbytes && (n - 1) * UNIT < nbytes + UNIT
  {
    (nbytes + UNIT - 1) / UNIT + 1
  }

  /** sbrk takes an int: what a uint64 byte count becomes on the way. */
  function AsInt(n: nat): int {
    var w := n % (2 * INT_LIMIT);
    if w < INT_LIMIT then w else w - 2 * INT_LIMIT
  }

  /** The end of memory after sbrk(n); sbrk cannot take away more than there is, and then takes nothing. */
  function Sbrk(end: int, n: int): int {
    if n < 0 && end + n < 0 then end else end + n
  }

  /** When bits are lost, sbrk moves the end of memory by less than was asked. */
  lemma LostBytes(end: int, n: nat)
    requires end >= 0 && AsInt(n * UNIT) != n * UNIT
    ensures Sbrk(end, AsInt(n * UNIT)) < end + UNIT * n
  {
  }

  /** What morecore asks for. */
  function CoreUnits(nu: nat): nat {
    if nu < 4096 then 4096 else nu
  }

  lemma CoreEnough(nu: nat)
    ensures CoreUnits(nu) >= nu && CoreUnits(nu) >= 1
  {
  }

  /** sbrk is asked for the bytes morecore wants exactly when the request is at most 2^31 - 32 bytes. */
  lemma SbrkArgumentExact(nbytes: nat)
    requires nbytes < 2 * INT_LIMIT
    ensures AsInt(CoreUnits(UnitsFor(nbytes)) * UNIT) == CoreUnits(UnitsFor(nbytes)) * UNIT
            <==> nbytes <= INT_LIMIT - 2 * UNIT
  {
    var n := CoreUnits(UnitsFor(nbytes)) * UNIT;
    assert n < 2 * INT_LIMIT + 2 * UNIT;
  }

  /** malloc(4294967295) looks for 268435457 units, but has sbrk add only the bytes of one. */
  lemma SbrkArgumentLost()
    ensures UnitsFor(0xFFFF_FFFF) == 268435457 && AsInt(CoreUnits(268435457) * UNIT) == UNIT
  {
  }

  /** Free-list position i of a ring of n, counting past the end once. */
  function Wrap(i: int, n: int): int {
    if i < n then i else i - n
  }

  /** Position k is among the c-1 positions that follow f on a circle of n. */
  predicate Passed(f: int, c: int, n: int, k: int) {
    f < k < f + c || k + n < f + c
  }

  lemma WrapNext(f: int, c: int, n: int)
    requires 0 <= f < n && 0 <= c < n
    ensures Wrap(f + c + 1, n) == Wrap(Wrap(f + c, n) + 1, n) && 0 <= Wrap(f + c + 1, n) < n
    ensures c == 0 ==> Wrap(f + 1, n) == if f + 1 < n then f + 1 else 0
  {
  }

  lemma WrapBack(f: int, c: int, n: int)
    requires 0 <= f < n && 1 <= c <= n
    ensures Wrap(f + c, n) == f <==> c == n
  {
  }

  /** The walk from f, c steps on, has met no block of nu units. */
  ghost predicate Walked(ring: seq<int>, size: map<int, nat>, f: int, c: int, nu: nat) {
    forall k :: 0 <= k < |ring| && Passed(f, c, |ring|, k) ==> ring[k] in size && size[ring[k]] < nu
  }

  lemma WalkedNone(ring: seq<int>, size: map<int, nat>, f: int, nu: nat)
    requires 0 <= f < |ring|
    ensures Walked(ring, size, f, 1, nu)
  {
  }

  lemma WalkedNext(ring: seq<int>, size: map<int, nat>, f: int, c: int, nu: nat)
    requires Walked(ring, size, f, c, nu) && 0 <= f < |ring| && 1 <= c < |ring|
    requires 0 <= Wrap(f + c, |ring|) < |ring| && ring[Wrap(f + c, |ring|)] in size
    requires size[ring[Wrap(f + c, |ring|)]] < nu
    ensures Walked(ring, size, f, c + 1, nu)
  {
    var n := |ring|;
    forall k | 0 <= k < n && Passed(f, c + 1, n, k) ensures ring[k] in size && size[ring[k]] < nu {
      assert Passed(f, c, n, k) || k == Wrap(f + c, n);
    }
  }

  lemma WalkedAll(ring: seq<int>, size: map<int, nat>, f: int, nu: nat)
    requires Walked(ring, size, f, |ring|, nu) && 0 <= f < |ring| && ring[f] in size && size[ring[f]] < nu
    ensures forall k :: 0 <= k < |ring| ==> ring[k] in size && size[ring[k]] < nu
  {
    forall k | 0 <= k < |ring| ensures ring[k] in size && size[ring[k]] < nu {
      assert k != f ==> Passed(f, |ring|, |ring|, k);
    }
  }

  ghost predicate Ascending(ring: seq<int>) {
    forall i, j :: 0 <= i < j < |ring| ==> ring[i] < ring[j]
  }

  /** The links form one circle through `ring`, which ascends from the base: one wrap point. */
  ghost predicate Linked(ring: seq<int>, ptr: map<int, int>, size: map<int, nat>, base: int) {
    && |ring| > 0 && ring[0] == base && Ascending(ring)
    && (forall i :: 0 <= i < |ring| ==> ring[i] in ptr && ring[i] in size)
    && (forall i :: 0 <= i < |ring| - 1 ==> ptr[ring[i]] == ring[i + 1])
    && ptr[ring[|ring| - 1]] == base
    && size[base] == 0
    && (forall i :: 1 <= i < |ring| ==> size[ring[i]] >= 1)
  }

  function End(size: map<int, nat>, a: int): int
    requires a in size
  {
    a + UNIT * size[a]
  }

  /** The start addresses of all blocks, free or live. */
  ghost function Blocks(ring: seq<int>, live: map<int, nat>): set<int> {
    live.Keys + set i | 1 <= i < |ring| :: ring[i]
  }

  /** The blocks in use: handed out by malloc, above the base, not on the free list. */
  ghost predicate LiveOk(ring: seq<int>, size: map<int, nat>, live: map<int, nat>, base: int) {
    && (forall a :: a in live ==> a in size && size[a] == live[a] >= 1 && a > base)
    && (forall i :: 0 <= i < |ring| ==> ring[i] !in live)
  }

  /** Every byte obtained from sbrk lies in exactly one block: `owner` says which. */
  ghost predicate Partition(blocks: set<int>, size: map<int, nat>, owner: map<int, int>) {
    && blocks <= size.Keys
    && (forall u :: u in owner ==> owner[u] in blocks && owner[u] <= u < End(size, owner[u]))
    && (forall a, u :: a in blocks && a <= u < End(size, a) ==> u in owner && owner[u] == a)
  }

  /** Distinct blocks do not overlap. */
  lemma Apart(blocks: set<int>, size: map<int, nat>, owner: map<int, int>, a: int, b: int)
    requires Partition(blocks, size, owner) && a in blocks && b in blocks && a < b && size[b] >= 1
    ensures End(size, a) <= b
  {
    assert b in owner && owner[b] == b;
  }

  /** The last position whose address is below bp: where free inserts. */
  ghost function Slot(ring: seq<int>, bp: int): (t: nat)
    requires |ring| > 0 && ring[0] < bp && Ascending(ring)
    ensures t < |ring| && ring[t] < bp
    ensures forall i :: t < i < |ring| ==> ring[i] >= bp
  {
    if ring[|ring| - 1] < bp then |ring| - 1 else Slot(ring[..|ring| - 1], bp)
  }

  /** free's loop and break conditions together hold at exactly one position of the circle. */
  lemma StopsAtSlot(ring: seq<int>, ptr: map<int, int>, size: map<int, nat>, base: int, bp: int, j: nat)
    requires Linked(ring, ptr, size, base) && bp > base && j < |ring| && (forall i :: 0 <= i < |ring| ==> ring[i] != bp)
    ensures var p := ring[j];
            (bp > p && bp < ptr[p]) || (p >= ptr[p] && (bp > p || bp < ptr[p])) <==> j == Slot(ring, bp)
  {
    var t := Slot(ring, bp);
    if j < |ring| - 1 {
      assert ring[j] < ring[j + 1] && ptr[ring[j]] == ring[j + 1];
      assert t > j ==> ring[j + 1] <= ring[t];
    }
  }

  lemma LinkedFacts(ring: seq<int>, ptr: map<int, int>, size: map<int, nat>, base: int)
    requires Linked(ring, ptr, size, base)
    ensures Ascending(ring) && forall i :: 0 <= i < |ring| ==> ring[i] in ptr && ring[i] in size
    ensures size[base] == 0 && ring[0] == base && forall i :: 1 <= i < |ring| ==> size[ring[i]] >= 1
  {
  }

  lemma NextLink(ring: seq<int>, ptr: map<int, int>, size: map<int, nat>, base: int, t: nat)
    requires Linked(ring, ptr, size, base) && t < |ring|
    ensures ring[t] in ptr && ptr[ring[t]] == ring[Wrap(t + 1, |ring|)]
  {
  }

  /** The allocator's state as a value: free list, headers, live blocks, owner of every byte. */
  datatype Store = Store(ring: seq<int>, ptr: map<int, int>, size: map<int, nat>, live: map<int, nat>,
                         owner: map<int, int>)

  ghost predicate Sound(s: Store, base: int) {
    && Linked(s.ring, s.ptr, s.size, base) && LiveOk(s.ring, s.size, s.live, base)
    && Partition(Blocks(s.ring, s.live), s.size, s.owner)
  }

  /** Free neighbours are apart, and strictly so except at the positions in `touching`. */
  ghost predicate Gaps(s: Store, touching: set<int>) {
    && (forall i :: 0 <= i < |s.ring| ==> s.ring[i] in s.size)
    && forall i :: 0 <= i < |s.ring| - 1 ==>
         End(s.size, s.ring[i]) <= s.ring[i + 1] && (i !in touching ==> End(s.size, s.ring[i]) < s.ring[i + 1])
  }

  lemma LiveFacts(s: Store, base: int, bp: int)
    requires Sound(s, base) && bp in s.live
    ensures bp > base && bp in s.size && s.size[bp] == s.live[bp] >= 1
    ensures |s.ring| > 0 && s.ring[0] == base && Ascending(s.ring) && forall i :: 0 <= i < |s.ring| ==> s.ring[i] != bp
  {
  }

  lemma OnlyBase(s: Store, base: int)
    requires s.ring == [base] && base in s.ptr && s.ptr[base] == base && base in s.size && s.size[base] == 0
    requires s.live == map[] && s.owner == map[]
    ensures Sound(s, base) && Gaps(s, {})
  {
  }

  // ---- linking a block in ----

  ghost function Inserted(ring: seq<int>, t: nat, bp: int): (r: seq<int>)
    requires t < |ring|
    ensures |r| == |ring| + 1
  {
    seq(|ring| + 1, i requires 0 <= i <= |ring| =>
          if i <= t then ring[i] else if i == t + 1 then bp else ring[i - 1])
  }

  lemma InsertLinked(ring: seq<int>, ptr: map<int, int>, size: map<int, nat>, base: int, bp: int, t: nat)
    requires Linked(ring, ptr, size, base) && bp in size && size[bp] >= 1
    requires t < |ring| && ring[t] < bp && (t + 1 < |ring| ==> bp < ring[t + 1])
    ensures Linked(Inserted(ring, t, bp), ptr[bp := ptr[ring[t]]][ring[t] := bp], size, base)
  {
    var r, q := Inserted(ring, t, bp), ptr[bp := ptr[ring[t]]][ring[t] := bp];
    assert Ascending(r);
    forall i | 0 <= i < |r| - 1 ensures q[r[i]] == r[i + 1] {
      if i > t + 1 { assert ptr[ring[i - 1]] == ring[i]; }
    }
  }

  lemma InsertBlocks(ring: seq<int>, live: map<int, nat>, bp: int, t: nat)
    requires bp in live && t < |ring|
    ensures Blocks(Inserted(ring, t, bp), live - {bp}) == Blocks(ring, live)
  {
    var r := Inserted(ring, t, bp);
    forall a | a in Blocks(ring, live) ensures a in Blocks(r, live - {bp}) {
      if i :| 1 <= i < |ring| && ring[i] == a {
        assert r[if i <= t then i else i + 1] == a;
      } else if a == bp {
        assert r[t + 1] == a;
      }
    }
    forall a | a in Blocks(r, live - {bp}) ensures a in Blocks(ring, live) {
      if i :| 1 <= i < |r| && r[i] == a {
        assert i <= t ==> ring[i] == a;
        assert i > t + 1 ==> ring[i - 1] == a;
      }
    }
  }

  ghost function Link(s: Store, bp: int, t: nat): Store
    requires t < |s.ring| && s.ring[t] in s.ptr
  {
    s.(ring := Inserted(s.ring, t, bp), ptr := s.ptr[bp := s.ptr[s.ring[t]]][s.ring[t] := bp], live := s.live - {bp})
  }

  lemma LinkGaps(s: Store, bp: int, t: nat)
    requires Gaps(s, {}) && t < |s.ring| && s.ring[t] in s.ptr && bp in s.size && End(s.size, s.ring[t]) <= bp
    requires t == 0 ==> End(s.size, s.ring[t]) < bp
    requires t + 1 < |s.ring| ==> End(s.size, bp) <= s.ring[t + 1]
    ensures Gaps(Link(s, bp, t), {t, t + 1} - {0})
  {
    var r := Inserted(s.ring, t, bp);
    forall i | 0 <= i < |r| - 1
      ensures End(s.size, r[i]) <= r[i + 1]
              && (i !in {t, t + 1} - {0} ==> End(s.size, r[i]) < r[i + 1])
    {
      if i > t + 1 { assert End(s.size, s.ring[i - 1]) <= s.ring[i]; }
    }
  }

  lemma LinkLive(s: Store, base: int, bp: int, t: nat)
    requires LiveOk(s.ring, s.size, s.live, base) && t < |s.ring| && s.ring[t] in s.ptr
    ensures LiveOk(Inserted(s.ring, t, bp), s.size, s.live - {bp}, base)
  {
  }

  /** Putting a live block on the list where it belongs, without merging it yet. */
  lemma LinkSound(s: Store, base: int, bp: int, t: nat)
    requires Sound(s, base) && Gaps(s, {}) && bp in s.live && bp > base && t == Slot(s.ring, bp)
    ensures Sound(Link(s, bp, t), base) && Gaps(Link(s, bp, t), {t, t + 1} - {0})
  {
    LinkedFacts(s.ring, s.ptr, s.size, base);
    assert bp in s.size && s.size[bp] >= 1 && s.ring[t] < bp;
    assert t + 1 < |s.ring| ==> bp < s.ring[t + 1];
    hide Linked, LiveOk, Partition, Gaps, Slot;
    var blocks := Blocks(s.ring, s.live);
    if t + 1 < |s.ring| { Apart(blocks, s.size, s.owner, bp, s.ring[t + 1]); }
    if t > 0 { Apart(blocks, s.size, s.owner, s.ring[t], bp); }
    InsertLinked(s.ring, s.ptr, s.size, base, bp, t);
    InsertBlocks(s.ring, s.live, bp, t);
    LinkLive(s, base, bp, t);
    LinkGaps(s, bp, t);
  }

  // ---- merging two touching free blocks ----

  ghost function Without(ring: seq<int>, i: nat): (r: seq<int>)
    requires i < |ring|
    ensures |r| == |ring| - 1
  {
    seq(|ring| - 1, k requires 0 <= k < |ring| - 1 => if k < i then ring[k] else ring[k + 1])
  }

  lemma MergeLinked(ring: seq<int>, ptr: map<int, int>, size: map<int, nat>, base: int, i: nat)
    requires Linked(ring, ptr, size, base) && 1 <= i < |ring| - 1
    ensures var a, b := ring[i], ring[i + 1];
            Linked(Without(ring, i + 1), ptr[a := ptr[b]], size[a := size[a] + size[b]], base)
  {
  }

  /** Taking position i off the list. */
  lemma RemoveLinked(ring: seq<int>, ptr: map<int, int>, size: map<int, nat>, base: int, i: nat)
    requires Linked(ring, ptr, size, base) && 1 <= i < |ring|
    ensures Linked(Without(ring, i), ptr[ring[i - 1] := ptr[ring[i]]], size, base)
  {
    var r, q := Without(ring, i), ptr[ring[i - 1] := ptr[ring[i]]];
    assert Ascending(r);
    forall k | 0 <= k < |r| - 1 ensures q[r[k]] == r[k + 1] {
      var g := if k < i then k else k + 1;
      assert ring[g] in ptr && ptr[ring[g]] == ring[g + 1];
    }
  }

  lemma WithoutBlocks(ring: seq<int>, live: map<int, nat>, i: nat)
    requires 1 <= i < |ring| && Ascending(ring) && ring[i] !in live
    ensures Blocks(Without(ring, i), live) == Blocks(ring, live) - {ring[i]}
  {
    var r := Without(ring, i);
    forall a | a in Blocks(ring, live) && a != ring[i] ensures a in Blocks(r, live) {
      if k :| 1 <= k < |ring| && ring[k] == a {
        assert r[if k < i then k else k - 1] == a;
      }
    }
    forall a | a in Blocks(r, live) ensures a in Blocks(ring, live) && a != ring[i] {
      if k :| 1 <= k < |r| && r[k] == a {
        assert ring[if k < i then k else k + 1] == a;
      }
    }
  }

  /** The owners after the block at b is merged into the block at a. */
  ghost function Merged(owner: map<int, int>, a: int, b: int): map<int, int> {
    map u | u in owner :: if owner[u] == b then a else owner[u]
  }

  lemma MergePartition(blocks: set<int>, size: map<int, nat>, owner: map<int, int>, a: int, b: int)
    requires Partition(blocks, size, owner) && a in blocks && b in blocks && a != b && End(size, a) == b
    ensures Partition(blocks - {b}, size[a := size[a] + size[b]], Merged(owner, a, b))
  {
    hide Partition;
    PartitionAt(blocks, size, owner);
    var z, o := size[a := size[a] + size[b]], Merged(owner, a, b);
    assert End(z, a) == End(size, b);
    forall u | u in o ensures o[u] in blocks - {b} && o[u] <= u < End(z, o[u]) {
      PartitionOwner(blocks, size, owner, u);
    }
    forall c, u | c in blocks - {b} && c in z && c <= u < End(z, c) ensures u in o && o[u] == c {
      PartitionBlock(blocks, size, owner, if c != a || u < b then c else b, u);
    }
    PartitionIntro(blocks - {b}, z, o);
  }

  lemma PartitionAt(blocks: set<int>, size: map<int, nat>, owner: map<int, int>)
    requires Partition(blocks, size, owner)
    ensures blocks <= size.Keys
  {
  }

  lemma PartitionOwner(blocks: set<int>, size: map<int, nat>, owner: map<int, int>, u: int)
    requires Partition(blocks, size, owner) && u in owner
    ensures owner[u] in blocks && owner[u] in size && owner[u] <= u < End(size, owner[u])
  {
  }

  lemma PartitionBlock(blocks: set<int>, size: map<int, nat>, owner: map<int, int>, a: int, u: int)
    requires Partition(blocks, size, owner) && a in blocks && a in size && a <= u < End(size, a)
    ensures u in owner && owner[u] == a
  {
  }

  lemma PartitionIntro(blocks: set<int>, size: map<int, nat>, owner: map<int, int>)
    requires blocks <= size.Keys
    requires forall u :: u in owner ==> owner[u] in blocks && owner[u] <= u < End(size, owner[u])
    requires forall a, u :: a in blocks && a in size && a <= u < End(size, a) ==> u in owner && owner[u] == a
    ensures Partition(blocks, size, owner)
  {
  }

  ghost function MergeAt(s: Store, i: nat): Store
    requires i + 1 < |s.ring| && s.ring[i] in s.size && s.ring[i + 1] in s.size && s.ring[i + 1] in s.ptr
  {
    var a, b := s.ring[i], s.ring[i + 1];
    s.(ring := Without(s.ring, i + 1), ptr := s.ptr[a := s.ptr[b]], size := s.size[a := s.size[a] + s.size[b]],
    owner := Merged(s.owner, a, b))
  }

  lemma MergeLive(s: Store, base: int, i: nat)
    requires LiveOk(s.ring, s.size, s.live, base) && i + 1 < |s.ring|
    requires s.ring[i] in s.size && s.ring[i + 1] in s.size
    ensures LiveOk(Without(s.ring, i + 1), s.size[s.ring[i] := s.size[s.ring[i]] + s.size[s.ring[i + 1]]], s.live, base)
  {
  }

  lemma InBlocks(s: Store, base: int, i: nat)
    requires LiveOk(s.ring, s.size, s.live, base) && 1 <= i < |s.ring|
    ensures s.ring[i] !in s.live && s.ring[i] in Blocks(s.ring, s.live)
  {
  }

  lemma MergeSound(s: Store, base: int, i: nat, touching: set<int>)
    requires Sound(s, base) && Gaps(s, touching) && 1 <= i < |s.ring| - 1
    requires End(s.size, s.ring[i]) == s.ring[i + 1] && (forall k :: k in touching ==> k <= i)
    ensures Sound(MergeAt(s, i), base) && Gaps(MergeAt(s, i), touching - {i})
  {
    hide Linked, LiveOk, Partition, Gaps, Blocks;
    var a, b := s.ring[i], s.ring[i + 1];
    LinkedFacts(s.ring, s.ptr, s.size, base);
    InBlocks(s, base, i);
    InBlocks(s, base, i + 1);
    MergeLinked(s.ring, s.ptr, s.size, base, i);
    MergeLive(s, base, i);
    WithoutBlocks(s.ring, s.live, i + 1);
    MergePartition(Blocks(s.ring, s.live), s.size, s.owner, a, b);
    MergeGaps(s, i, touching);
  }

  lemma MergeGaps(s: Store, i: nat, touching: set<int>)
    requires Gaps(s, touching) && 1 <= i < |s.ring| - 1 && Ascending(s.ring) && s.ring[i + 1] in s.ptr
    requires End(s.size, s.ring[i]) == s.ring[i + 1] && (forall k :: k in touching ==> k <= i)
    ensures Gaps(MergeAt(s, i), touching - {i})
  {
    var m := MergeAt(s, i);
    forall k | 0 <= k < |m.ring| - 1
      ensures End(m.size, m.ring[k]) <= m.ring[k + 1]
              && (k !in touching - {i} ==> End(m.size, m.ring[k]) < m.ring[k + 1])
    {
      var g := if k < i then k else k + 1;
      assert End(s.size, s.ring[g]) <= s.ring[g + 1];
    }
  }

  // ---- freeing a block ----

  ghost predicate CanFree(s: Store, base: int, bp: int, t: nat) {
    Sound(s, base) && Gaps(s, {}) && bp in s.live && bp > base && t == Slot(s.ring, bp)
  }

  lemma CanFreeFacts(s: Store, base: int, bp: int, t: nat)
    requires CanFree(s, base, bp, t)
    ensures t < |s.ring| && s.ring[t] < bp && s.ring[t] in s.ptr && s.ring[t] in s.size && bp in s.size
    ensures s.ptr[s.ring[t]] == if t + 1 < |s.ring| then s.ring[t + 1] else base
    ensures t + 1 < |s.ring| ==> bp < s.ring[t + 1] && s.ring[t + 1] in s.size && s.ring[t + 1] in s.ptr
    ensures s.size[bp] >= 1
  {
  }

  /** The block bp linked in behind position t and merged with the free block it touches above. */
  ghost function LinkUp(s: Store, base: int, bp: int, t: nat): Store
    requires CanFree(s, base, bp, t)
  {
    LinkSound(s, base, bp, t);
    var s1 := Link(s, bp, t);
    if t + 2 < |s1.ring| && End(s1.size, bp) == s1.ring[t + 2] then MergeAt(s1, t + 1) else s1
  }

  lemma LinkUpSound(s: Store, base: int, bp: int, t: nat)
    requires CanFree(s, base, bp, t)
    ensures var s2 := LinkUp(s, base, bp, t);
            && Sound(s2, base) && Gaps(s2, {t} - {0}) && s2.live == s.live - {bp}
            && t + 1 < |s2.ring| && s2.ring[t] == s.ring[t] && s2.ring[t + 1] == bp
  {
    hide Linked, LiveOk, Partition, Gaps, Blocks;
    LinkSound(s, base, bp, t);
    LinkedFacts(s.ring, s.ptr, s.size, base);
    var s1 := Link(s, bp, t);
    LinkedFacts(s1.ring, s1.ptr, s1.size, base);
    assert s1.ring[t] == s.ring[t] && s1.ring[t + 1] == bp;
    var upper := {t, t + 1} - {0};
    assert upper - {t + 1} == {t} - {0};
    if t + 2 < |s1.ring| && End(s1.size, bp) == s1.ring[t + 2] {
      MergeSound(s1, base, t + 1, upper);
    } else {
      NotTouching(s1, upper, t + 1);
    }
  }

  /** And with the one it touches below: the whole effect of free. */
  ghost function Freed(s: Store, base: int, bp: int, t: nat): Store
    requires CanFree(s, base, bp, t)
  {
    LinkUpSound(s, base, bp, t);
    var s2 := LinkUp(s, base, bp, t);
    if t > 0 && End(s2.size, s2.ring[t]) == bp then MergeAt(s2, t) else s2
  }

  lemma FreedSound(s: Store, base: int, bp: int, t: nat)
    requires CanFree(s, base, bp, t)
    ensures var f := Freed(s, base, bp, t);
            && Sound(f, base) && Gaps(f, {}) && f.live == s.live - {bp}
            && t < |f.ring| && f.ring[t] == s.ring[t]
  {
    hide Linked, LiveOk, Partition, Gaps, Blocks, LinkUp, Slot;
    LinkUpSound(s, base, bp, t);
    var s2 := LinkUp(s, base, bp, t);
    LinkedFacts(s2.ring, s2.ptr, s2.size, base);
    var lower := {t} - {0};
    assert lower - {t} == {};
    if t > 0 && End(s2.size, s2.ring[t]) == bp {
      MergeSound(s2, base, t, lower);
    } else {
      NotTouching(s2, lower, t);
    }
  }

  /** Only bytes of free blocks and of the block freed change their block. */
  lemma FreedOwner(s: Store, base: int, bp: int, t: nat)
    requires CanFree(s, base, bp, t)
    ensures var f := Freed(s, base, bp, t);
            f.owner.Keys == s.owner.Keys
            && forall u :: u in f.owner && s.owner[u] in f.live ==> f.owner[u] == s.owner[u]
  {
    hide Linked, LiveOk, Partition, Gaps, Blocks, LinkUp, Slot, Without;
    LinkUpOwner(s, base, bp, t);
    LinkUpSound(s, base, bp, t);
    var s2 := LinkUp(s, base, bp, t);
    assert bp !in s2.live;
  }

  lemma LinkUpOwner(s: Store, base: int, bp: int, t: nat)
    requires CanFree(s, base, bp, t)
    ensures var f := LinkUp(s, base, bp, t);
            f.owner.Keys == s.owner.Keys
            && forall u :: u in f.owner && s.owner[u] in f.live ==> f.owner[u] == s.owner[u]
  {
    hide Linked, LiveOk, Partition, Gaps, Blocks, Slot, Without;
    CanFreeFacts(s, base, bp, t);
    var s1 := Link(s, bp, t);
    assert s1.ring[t + 1] == bp;
    if t + 2 < |s1.ring| {
      InBlocks(s, base, t + 1);
      assert s1.ring[t + 2] !in s1.live;
    }
  }

  /** Headers after the upper merge, as the code computes them. */
  lemma LinkUpFields(s: Store, base: int, bp: int, t: nat)
    requires CanFree(s, base, bp, t)
    ensures var p := s.ring[t]; p in s.ptr && p in s.size && bp in s.size
    ensures var p := s.ring[t]; var nxt := s.ptr[p]; var up := End(s.size, bp) == nxt;
            && (up ==> nxt in s.size && nxt in s.ptr && nxt != p)
            && LinkUp(s, base, bp, t).size == (if up then s.size[bp := s.size[bp] + s.size[nxt]] else s.size)
            && LinkUp(s, base, bp, t).ptr == (if up then s.ptr[bp := s.ptr[nxt]] else s.ptr[bp := nxt])[p := bp]
  {
    hide Linked, LiveOk, Partition, Gaps, Blocks, Slot;
    CanFreeFacts(s, base, bp, t);
    var s1 := Link(s, bp, t);
    assert s1.ring[t + 1] == bp;
    if t + 1 < |s.ring| {
      var p, nxt := s.ring[t], s.ring[t + 1];
      assert s1.ring[t + 2] == nxt;
      assert s1.ptr[bp := s1.ptr[nxt]] == s.ptr[bp := s.ptr[nxt]][p := bp];
    }
  }

  /** Headers after the lower merge; q is the link map before p's own link is set. */
  lemma FreedFields(s: Store, base: int, bp: int, t: nat, q: map<int, int>)
    requires CanFree(s, base, bp, t) && LinkUp(s, base, bp, t).ptr == q[s.ring[t] := bp]
    ensures var p := s.ring[t]; var s2 := LinkUp(s, base, bp, t); p in s2.size && bp in s2.size && bp in q && bp != p
    ensures var p := s.ring[t]; var z := LinkUp(s, base, bp, t).size; var down := End(z, p) == bp;
            && Freed(s, base, bp, t).size == (if down then z[p := z[p] + z[bp]] else z)
            && Freed(s, base, bp, t).ptr == (if down then q[p := q[bp]] else q[p := bp])
  {
    hide LiveOk, Partition, Gaps, Blocks, LinkUp;
    LinkUpSound(s, base, bp, t);
    var s2 := LinkUp(s, base, bp, t);
    LinkedFacts(s2.ring, s2.ptr, s2.size, base);
    assert s2.ring[t] < s2.ring[t + 1];
    assert t == 0 ==> End(s2.size, s2.ring[t]) == base;
  }

  lemma NotTouching(s: Store, touching: set<int>, i: nat)
    requires Gaps(s, touching)
    requires i in touching && i + 1 < |s.ring| && s.ring[i] in s.size ==> End(s.size, s.ring[i]) != s.ring[i + 1]
    ensures Gaps(s, touching - {i})
  {
  }

  // ---- taking a block ----

  /** The store after malloc takes all of the free block at position i. */
  ghost function TakeAll(s: Store, i: nat): Store
    requires 1 <= i < |s.ring| && s.ring[i] in s.ptr && s.ring[i] in s.size
  {
    s.(ring := Without(s.ring, i), ptr := s.ptr[s.ring[i - 1] := s.ptr[s.ring[i]]],
    live := s.live[s.ring[i] := s.size[s.ring[i]]])
  }

  lemma TakeAllSound(s: Store, base: int, i: nat)
    requires Sound(s, base) && Gaps(s, {}) && 1 <= i < |s.ring|
    ensures s.ring[i] in s.ptr && s.ring[i] in s.size && Sound(TakeAll(s, i), base) && Gaps(TakeAll(s, i), {})
  {
    hide Linked, LiveOk, Partition, Gaps, Blocks;
    LinkedFacts(s.ring, s.ptr, s.size, base);
    RemoveLinked(s.ring, s.ptr, s.size, base, i);
    TakeAllLive(s, base, i);
    TakeAllBlocks(s.ring, s.live, s.size, i);
    TakeAllGaps(s, i);
  }

  lemma TakeAllLive(s: Store, base: int, i: nat)
    requires LiveOk(s.ring, s.size, s.live, base) && 1 <= i < |s.ring| && Ascending(s.ring) && s.ring[0] == base
    requires s.ring[i] in s.size && s.size[s.ring[i]] >= 1
    ensures LiveOk(Without(s.ring, i), s.size, s.live[s.ring[i] := s.size[s.ring[i]]], base)
  {
  }

  lemma TakeAllBlocks(ring: seq<int>, live: map<int, nat>, size: map<int, nat>, i: nat)
    requires 1 <= i < |ring| && ring[i] in size
    ensures Blocks(Without(ring, i), live[ring[i] := size[ring[i]]]) == Blocks(ring, live)
  {
    var r, l := Without(ring, i), live[ring[i] := size[ring[i]]];
    forall a | a in Blocks(ring, live) ensures a in Blocks(r, l) {
      if k :| 1 <= k < |ring| && ring[k] == a {
        assert k < i ==> r[k] == a;
        assert k > i ==> r[k - 1] == a;
      }
    }
    forall a | a in Blocks(r, l) ensures a in Blocks(ring, live) {
      if k :| 1 <= k < |r| && r[k] == a {
        assert ring[if k < i then k else k + 1] == a;
      }
    }
  }

  lemma TakeAllGaps(s: Store, i: nat)
    requires Gaps(s, {}) && 1 <= i < |s.ring| && Ascending(s.ring) && s.ring[i] in s.ptr
    ensures Gaps(TakeAll(s, i), {})
  {
    var r := Without(s.ring, i);
    forall k | 0 <= k < |r| - 1 ensures End(s.size, r[k]) < r[k + 1] {
      var g := if k < i then k else k + 1;
      assert End(s.size, s.ring[g]) < s.ring[g + 1];
      assert k == i - 1 ==> s.ring[i] < s.ring[i + 1];
    }
  }

  /** The owners after [q, e) becomes a block of its own. */
  ghost function Cut(owner: map<int, int>, q: int, e: int): map<int, int> {
    map u | u in owner :: if q <= u < e then q else owner[u]
  }

  /** The store after malloc takes the last nu units of the larger free block at position i. */
  ghost function TakeTail(s: Store, i: nat, nu: nat): Store
    requires 1 <= i < |s.ring| && s.ring[i] in s.size && 1 <= nu < s.size[s.ring[i]]
  {
    var p := s.ring[i];
    var q := p + UNIT * (s.size[p] - nu);
    s.(size := s.size[p := s.size[p] - nu][q := nu], live := s.live[q := nu], owner := Cut(s.owner, q, q + UNIT * nu))
  }

  lemma TakeTailSound(s: Store, base: int, i: nat, nu: nat)
    requires Sound(s, base) && Gaps(s, {}) && 1 <= i < |s.ring|
    requires s.ring[i] in s.size && 1 <= nu < s.size[s.ring[i]]
    ensures s.ring[i] + UNIT * (s.size[s.ring[i]] - nu) !in s.live
    ensures Sound(TakeTail(s, i, nu), base) && Gaps(TakeTail(s, i, nu), {})
    ensures forall u :: u in s.owner && s.owner[u] in s.live ==> TakeTail(s, i, nu).owner[u] == s.owner[u]
  {
    hide Linked, LiveOk, Partition, Gaps, Blocks;
    LinkedFacts(s.ring, s.ptr, s.size, base);
    var p := s.ring[i];
    var q := p + UNIT * (s.size[p] - nu);
    InBlocks(s, base, i);
    TailIsNew(s, base, p, q);
    TakeTailLinked(s, base, i, nu);
    TakeTailLive(s, base, i, nu);
    TakeTailBlocks(s, q, nu);
    CutPartition(Blocks(s.ring, s.live), s.size, s.owner, p, nu);
    TakeTailGaps(s, i, nu);
    forall u | u in s.owner && s.owner[u] in s.live ensures !(q <= u < q + UNIT * nu) {
      if q <= u < q + UNIT * nu { PartitionBlock(Blocks(s.ring, s.live), s.size, s.owner, p, u); }
    }
  }

  /** An address inside a block is not the start of a block. */
  lemma TailIsNew(s: Store, base: int, p: int, q: int)
    requires Sound(s, base) && p in Blocks(s.ring, s.live) && p in s.size && p < q < End(s.size, p)
    ensures q !in Blocks(s.ring, s.live) && q !in s.live
    ensures forall k :: 0 <= k < |s.ring| ==> s.ring[k] != q
    ensures base < q
  {
    assert q in s.owner && s.owner[q] == p;
    assert base < p;
    forall b | b in Blocks(s.ring, s.live) ensures b in s.owner && s.owner[b] == b {
      assert s.size[b] >= 1 && b <= b < End(s.size, b);
    }
  }

  lemma TakeTailLinked(s: Store, base: int, i: nat, nu: nat)
    requires Linked(s.ring, s.ptr, s.size, base) && 1 <= i < |s.ring| && 1 <= nu < s.size[s.ring[i]]
    requires forall k :: 0 <= k < |s.ring| ==> s.ring[k] != s.ring[i] + UNIT * (s.size[s.ring[i]] - nu)
    ensures Linked(s.ring, s.ptr, TakeTail(s, i, nu).size, base)
  {
  }

  lemma TakeTailLive(s: Store, base: int, i: nat, nu: nat)
    requires LiveOk(s.ring, s.size, s.live, base) && 1 <= i < |s.ring| && s.ring[i] in s.size
    requires 1 <= nu < s.size[s.ring[i]] && base < s.ring[i]
    requires forall k :: 0 <= k < |s.ring| ==> s.ring[k] != s.ring[i] + UNIT * (s.size[s.ring[i]] - nu)
    ensures LiveOk(s.ring, TakeTail(s, i, nu).size, TakeTail(s, i, nu).live, base)
  {
  }

  lemma TakeTailBlocks(s: Store, q: int, nu: nat)
    ensures Blocks(s.ring, s.live[q := nu]) == Blocks(s.ring, s.live) + {q}
  {
  }

  lemma CutPartition(blocks: set<int>, size: map<int, nat>, owner: map<int, int>, p: int, nu: nat)
    requires Partition(blocks, size, owner) && p in blocks && 1 <= nu < size[p]
    requires p + UNIT * (size[p] - nu) !in blocks
    ensures var q := p + UNIT * (size[p] - nu);
            Partition(blocks + {q}, size[p := size[p] - nu][q := nu], Cut(owner, q, q + UNIT * nu))
  {
    hide Partition, Cut;
    PartitionAt(blocks, size, owner);
    var q := p + UNIT * (size[p] - nu);
    var z, o := size[p := size[p] - nu][q := nu], Cut(owner, q, q + UNIT * nu);
    forall u | u in o ensures o[u] in blocks + {q} && o[u] <= u < End(z, o[u]) {
      CutOwner(blocks, size, owner, p, nu, u);
    }
    forall c, u | c in blocks + {q} && c in z && c <= u < End(z, c) ensures u in o && o[u] == c {
      CutBlock(blocks, size, owner, p, nu, c, u);
    }
    CutKeys(owner, q, q + UNIT * nu);
    PartitionIntro(blocks + {q}, z, o);
  }

  lemma CutKeys(owner: map<int, int>, q: int, e: int)
    ensures Cut(owner, q, e).Keys == owner.Keys
  {
  }

  lemma CutOwner(blocks: set<int>, size: map<int, nat>, owner: map<int, int>, p: int, nu: nat, u: int)
    requires Partition(blocks, size, owner) && p in blocks && p in size && 1 <= nu < size[p]
    requires p + UNIT * (size[p] - nu) !in blocks && u in Cut(owner, p + UNIT * (size[p] - nu), End(size, p))
    ensures var q := p + UNIT * (size[p] - nu); var z := size[p := size[p] - nu][q := nu];
            var c := Cut(owner, q, q + UNIT * nu)[u];
            c in blocks + {q} && c in z && c <= u < End(z, c)
  {
    hide Partition;
    PartitionOwner(blocks, size, owner, u);
    var q := p + UNIT * (size[p] - nu);
    if q <= u < q + UNIT * nu { PartitionBlock(blocks, size, owner, p, u); }
  }

  lemma CutBlock(blocks: set<int>, size: map<int, nat>, owner: map<int, int>, p: int, nu: nat, c: int, u: int)
    requires Partition(blocks, size, owner) && p in blocks && p in size && 1 <= nu < size[p]
    requires p + UNIT * (size[p] - nu) !in blocks && c in blocks + {p + UNIT * (size[p] - nu)}
    requires var q := p + UNIT * (size[p] - nu); var z := size[p := size[p] - nu][q := nu];
             c in z && c <= u < End(z, c)
    ensures var q := p + UNIT * (size[p] - nu); var o := Cut(owner, q, q + UNIT * nu);
            u in o && o[u] == c
  {
    hide Partition;
    var q := p + UNIT * (size[p] - nu);
    PartitionBlock(blocks, size, owner, if c == q then p else c, u);
    if q <= u < q + UNIT * nu { PartitionBlock(blocks, size, owner, p, u); }
  }

  lemma TakeTailGaps(s: Store, i: nat, nu: nat)
    requires Gaps(s, {}) && 1 <= i < |s.ring| && s.ring[i] in s.size && 1 <= nu < s.size[s.ring[i]]
    requires forall k :: 0 <= k < |s.ring| ==> s.ring[k] != s.ring[i] + UNIT * (s.size[s.ring[i]] - nu)
    requires Ascending(s.ring)
    ensures Gaps(TakeTail(s, i, nu), {})
  {
    var m := TakeTail(s, i, nu);
    forall k | 0 <= k < |s.ring| - 1 ensures End(m.size, s.ring[k]) < s.ring[k + 1] {
      assert End(s.size, s.ring[k]) < s.ring[k + 1];
    }
  }

  // ---- new memory ----

  predicate Within(lo: int, u: int, hi: int) {
    lo <= u < hi
  }

  ghost function Fresh(hp: int, e: int): (m: map<int, int>)
    ensures forall u :: u in m <==> hp <= u < e
    ensures forall u :: u in m ==> m[u] == hp
  {
    map u: int | hp <= u < e && Within(hp, u, e) :: hp
  }

  /** The store once a fresh region of nu units at hp is recorded as a block in use. */
  ghost function Grown(s: Store, hp: int, nu: nat): Store {
    s.(size := s.size[hp := nu], live := s.live[hp := nu],
    owner := s.owner + Fresh(hp, hp + UNIT * nu))
  }

  lemma GrownSound(s: Store, base: int, hp: int, nu: nat, top: int)
    requires Sound(s, base) && Gaps(s, {}) && nu >= 1 && base < top <= hp
    requires forall u :: u in s.owner ==> u < top
    ensures hp !in s.live
    ensures Sound(Grown(s, hp, nu), base) && Gaps(Grown(s, hp, nu), {})
  {
    hide Linked, LiveOk, Partition, Gaps, Blocks;
    LinkedFacts(s.ring, s.ptr, s.size, base);
    BlocksBelow(s, base, top);
    GrownLinked(s, base, hp, nu);
    GrownLive(s, base, hp, nu);
    TakeTailBlocks(s, hp, nu);
    GrownPartition(Blocks(s.ring, s.live), s.size, s.owner, hp, nu);
  }

  lemma GrownBytes(s: Store, hp: int, n: nat)
    ensures forall u :: u in Grown(s, hp, n).owner <==> u in s.owner || hp <= u < hp + UNIT * n
    ensures (forall u :: u in s.owner ==> u < hp) ==>
        forall u :: u in s.owner ==> Grown(s, hp, n).owner[u] == s.owner[u]
  {
  }

  lemma PutAndRemove(live: map<int, nat>, a: int, n: nat)
    requires a !in live
    ensures live[a := n] - {a} == live
  {
  }

  lemma BlocksBelow(s: Store, base: int, top: int)
    requires Sound(s, base) && base < top && forall u :: u in s.owner ==> u < top
    ensures forall a :: a in Blocks(s.ring, s.live) ==> a < top
    ensures forall a :: a in s.live ==> a < top
    ensures forall k :: 0 <= k < |s.ring| ==> s.ring[k] < top
  {
    forall a | a in Blocks(s.ring, s.live) ensures a < top {
      assert s.size[a] >= 1 && a <= a < End(s.size, a);
      assert a in s.owner;
    }
    forall k | 0 <= k < |s.ring| ensures s.ring[k] < top {
      if k > 0 { assert s.ring[k] in Blocks(s.ring, s.live); }
    }
  }

  lemma GrownLinked(s: Store, base: int, hp: int, nu: nat)
    requires Linked(s.ring, s.ptr, s.size, base) && Gaps(s, {}) && forall k :: 0 <= k < |s.ring| ==> s.ring[k] < hp
    ensures Linked(s.ring, s.ptr, s.size[hp := nu], base) && Gaps(Grown(s, hp, nu), {})
  {
  }

  lemma GrownLive(s: Store, base: int, hp: int, nu: nat)
    requires LiveOk(s.ring, s.size, s.live, base) && nu >= 1 && hp > base
    requires forall k :: 0 <= k < |s.ring| ==> s.ring[k] < hp
    ensures LiveOk(s.ring, s.size[hp := nu], s.live[hp := nu], base)
  {
  }

  lemma GrownPartition(blocks: set<int>, size: map<int, nat>, owner: map<int, int>, hp: int, nu: nat)
    requires Partition(blocks, size, owner) && forall a :: a in blocks ==> a < hp
    requires forall u :: u in owner ==> u < hp
    ensures Partition(blocks + {hp}, size[hp := nu], owner + Fresh(hp, hp + UNIT * nu))
  {
    hide Partition;
    PartitionAt(blocks, size, owner);
    var z, o := size[hp := nu], owner + Fresh(hp, hp + UNIT * nu);
    forall u | u in o ensures o[u] in blocks + {hp} && o[u] <= u < End(z, o[u]) {
      if u in owner { PartitionOwner(blocks, size, owner, u); }
    }
    forall c, u | c in blocks + {hp} && c in z && c <= u < End(z, c) ensures u in o && o[u] == c {
      if c != hp { PartitionBlock(blocks, size, owner, c, u); }
    }
    PartitionIntro(blocks + {hp}, z, o);
  }

  /** Some free block is at least as big as the block just freed. */
  lemma FreedFit(s: Store, base: int, bp: int, t: nat)
    requires CanFree(s, base, bp, t)
    ensures var f := Freed(s, base, bp, t);
            bp in s.size && exists i :: 0 <= i < |f.ring| && f.ring[i] in f.size && f.size[f.ring[i]] >= s.size[bp]
  {
    hide Linked, LiveOk, Partition, Gaps, Blocks, Slot;
    LinkUpFields(s, base, bp, t);
    LinkUpSound(s, base, bp, t);
    FreedSound(s, base, bp, t);
    var s2, f := LinkUp(s, base, bp, t), Freed(s, base, bp, t);
    LinkedFacts(s2.ring, s2.ptr, s2.size, base);
    LinkedFacts(f.ring, f.ptr, f.size, base);
    assert s2.size[bp] >= s.size[bp];
    if t > 0 && End(s2.size, s2.ring[t]) == bp {
      assert f.size[f.ring[t]] >= s.size[bp];
    } else {
      assert f.ring[t + 1] == bp;
    }
  }

  /** A block freed above all free ones: it ends the list, merged at most with the last of them. */
  lemma FreedLast(s: Store, base: int, bp: int, t: nat, i: nat)
    requires CanFree(s, base, bp, t) && forall k :: 0 <= k < |s.ring| ==> s.ring[k] < bp
    requires i < |Freed(s, base, bp, t).ring|
    ensures var f := Freed(s, base, bp, t);
            && bp in s.size && f.ring[i] in f.size
            && (|| End(f.size, f.ring[i]) == End(s.size, bp)
                || (i < |s.ring| && f.ring[i] == s.ring[i] && s.ring[i] in s.size
                    && f.size[f.ring[i]] == s.size[s.ring[i]]))
  {
    hide LiveOk, Partition, Gaps, Blocks, Slot;
    CanFreeFacts(s, base, bp, t);
    LinkedFacts(s.ring, s.ptr, s.size, base);
    assert t == |s.ring| - 1;
    var s2 := LinkUp(s, base, bp, t);
    assert s2 == Link(s, bp, t);
  }

  /** Position i of t's list ends where the block bp of s does, or is as it was in s. */
  ghost predicate Tops(s: Store, t: Store, bp: int, i: nat) {
    && bp in s.size && i < |t.ring| && t.ring[i] in t.size
    && (|| End(t.size, t.ring[i]) == End(s.size, bp)
        || (i < |s.ring| && t.ring[i] == s.ring[i] && s.ring[i] in s.size && t.size[t.ring[i]] == s.size[s.ring[i]]))
  }

  ghost predicate AllTops(s: Store, t: Store, bp: int) {
    forall i: nat :: i < |t.ring| ==> Tops(s, t, bp, i)
  }

  /** With no fit for nu units in s, the only fit after a block of n was added at hp is at its end. */
  lemma OnlyFit(s: Store, t: Store, hp: int, n: nat, nu: nat)
    requires forall i :: 0 <= i < |s.ring| ==> s.ring[i] < hp && !(s.ring[i] in s.size && s.size[s.ring[i]] >= nu)
    requires AllTops(Grown(s, hp, n), t, hp)
    ensures forall i :: 0 <= i < |t.ring| && t.ring[i] in t.size && t.size[t.ring[i]] >= nu ==>
        End(t.size, t.ring[i]) == hp + UNIT * n
  {
    hide Fresh;
    forall i | 0 <= i < |t.ring| && t.ring[i] in t.size && t.size[t.ring[i]] >= nu
      ensures End(t.size, t.ring[i]) == hp + UNIT * n
    {
      assert Tops(Grown(s, hp, n), t, hp, i);
    }
  }

  /** The blocks can be given distinct bytes of the memory below end, each block all of its own. */
  ghost predicate Backed(s: Store, base: int, end: int) {
    exists owner: map<int, int> :: Sound(s.(owner := owner), base) && forall u :: u in owner ==> u < end
  }

  lemma IsBacked(s: Store, base: int, end: int)
    requires Sound(s, base) && forall u :: u in s.owner ==> u < end
    ensures Backed(s, base, end)
  {
    hide Linked, LiveOk, Partition;
    assert s == s.(owner := s.owner);
    assert Sound(s.(owner := s.owner), base);
  }

  /** A block that ends beyond the memory there is has no bytes to be given. */
  lemma NotBacked(s: Store, base: int, a: int, end: int)
    requires a in s.live && a in s.size && s.size[a] >= 1 && end < End(s.size, a)
    ensures !Backed(s, base, end)
  {
    forall owner: map<int, int> | Sound(s.(owner := owner), base) ensures exists u :: u in owner && u >= end {
      var t := s.(owner := owner);
      var last := End(s.size, a) - 1;
      PartitionBlock(Blocks(t.ring, t.live), t.size, t.owner, a, last);
      assert last in owner;
    }
  }

  // ---- conservation ----

  /** The units in those of the blocks that start below top. */
  ghost function Units(blocks: set<int>, size: map<int, nat>, top: nat): nat
    requires blocks <= size.Keys
  {
    if top == 0 then 0 else Units(blocks, size, top - 1) + if top - 1 in blocks then size[top - 1] else 0
  }

  /** The bytes of those blocks. */
  ghost function Bytes(blocks: set<int>, owner: map<int, int>, top: nat): set<int> {
    set u | u in owner && owner[u] in blocks && 0 <= owner[u] < top
  }

  ghost function Interval(a: int, n: nat): set<int> {
    if n == 0 then {} else Interval(a, n - 1) + {a + n - 1}
  }

  lemma {:induction false} IntervalIs(a: int, n: nat)
    ensures |Interval(a, n)| == n && forall u :: u in Interval(a, n) <==> a <= u < a + n
  {
    if n > 0 { IntervalIs(a, n - 1); }
  }

  lemma {:induction false} BytesCount(blocks: set<int>, size: map<int, nat>, owner: map<int, int>, top: nat)
    requires Partition(blocks, size, owner)
    ensures blocks <= size.Keys && |Bytes(blocks, owner, top)| == UNIT * Units(blocks, size, top)
  {
    hide Partition, Bytes, Units, Interval;
    PartitionAt(blocks, size, owner);
    UnitsStep(blocks, size, top);
    if top == 0 {
      BytesStep(blocks, owner, 0);
    } else {
      var a := top - 1;
      BytesCount(blocks, size, owner, a);
      if a in blocks {
        IntervalIs(a, UNIT * size[a]);
        BlockBytes(blocks, size, owner, a);
        DisjointCard(Bytes(blocks, owner, a), Interval(a, UNIT * size[a]));
      } else {
        BytesStep(blocks, owner, top);
      }
    }
  }

  lemma DisjointCard(a: set<int>, b: set<int>)
    requires a !! b
    ensures |a + b| == |a| + |b|
  {
  }

  lemma UnitsStep(blocks: set<int>, size: map<int, nat>, top: nat)
    requires blocks <= size.Keys
    ensures Units(blocks, size, top) ==
            if top == 0 then 0 else Units(blocks, size, top - 1) + if top - 1 in blocks then size[top - 1] else 0
  {
  }

  lemma BytesStep(blocks: set<int>, owner: map<int, int>, top: nat)
    ensures top == 0 ==> Bytes(blocks, owner, top) == {}
    ensures top > 0 && top - 1 !in blocks ==> Bytes(blocks, owner, top) == Bytes(blocks, owner, top - 1)
  {
  }

  lemma BlockBytes(blocks: set<int>, size: map<int, nat>, owner: map<int, int>, a: nat)
    requires Partition(blocks, size, owner) && a in blocks
    requires forall u :: u in Interval(a, UNIT * size[a]) <==> a <= u < a + UNIT * size[a]
    ensures Bytes(blocks, owner, a + 1) == Bytes(blocks, owner, a) + Interval(a, UNIT * size[a])
    ensures Bytes(blocks, owner, a) !! Interval(a, UNIT * size[a])
  {
    hide Interval;
    var i := Interval(a, UNIT * size[a]);
    forall u | u in i ensures u in owner && owner[u] == a { assert a <= u < End(size, a); }
    forall u | u in owner && owner[u] == a ensures u in i { assert a <= u < End(size, a); }
  }

  lemma {:induction false} UnitsApart(a: set<int>, b: set<int>, size: map<int, nat>, top: nat)
    requires a + b <= size.Keys && a !! b
    ensures Units(a + b, size, top) == Units(a, size, top) + Units(b, size, top)
  {
    if top > 0 { UnitsApart(a, b, size, top - 1); }
  }

  ghost function FreeBlocks(ring: seq<int>): set<int> { set i | 1 <= i < |ring| :: ring[i] }

  /** Conservation: the free and the live units make up exactly the bytes obtained; the base has none. */
  lemma UnitsConserved(s: Store, base: int, top: nat)
    requires Sound(s, base) && base >= 0 && forall u :: u in s.owner ==> u < top
    ensures s.live.Keys <= s.size.Keys && FreeBlocks(s.ring) <= s.size.Keys && s.size[base] == 0
    ensures |s.owner.Keys| == UNIT * (Units(FreeBlocks(s.ring), s.size, top) + Units(s.live.Keys, s.size, top))
  {
    hide Units, Bytes;
    var all := Blocks(s.ring, s.live);
    assert all == s.live.Keys + FreeBlocks(s.ring) && s.live.Keys !! FreeBlocks(s.ring);
    BytesCount(all, s.size, s.owner, top);
    AllBytes(s, base, top);
    UnitsApart(s.live.Keys, FreeBlocks(s.ring), s.size, top);
  }

  lemma AllBytes(s: Store, base: int, top: nat)
    requires Sound(s, base) && base >= 0 && forall u :: u in s.owner ==> u < top
    ensures Bytes(Blocks(s.ring, s.live), s.owner, top) == s.owner.Keys
  {
    forall u | u in s.owner ensures u in Bytes(Blocks(s.ring, s.live), s.owner, top) {
      assert s.owner[u] in Blocks(s.ring, s.live) && s.owner[u] <= u;
      assert base < s.owner[u];
    }
  }

  class Heap {
    const base: int
    var freep: int
    var ptr: map<int, int>        // s.ptr of the header at an address
    var size: map<int, nat>       // s.size of the header at an address
    var brk: int                  // end of memory obtained so far
    ghost var ring: seq<int>      // the free list from the base, in address order
    ghost var live: map<int, nat> // blocks in use and their units
    ghost var owner: map<int, int>

    ghost function Abs(): Store
      reads this
    {
      Store(ring, ptr, size, live, owner)
    }

    /** Circular, ascending, without overlap, fully coalesced, every byte of every block accounted for. */
    ghost predicate Threaded()
      reads this
    {
      NULL < base && freep != NULL && Sound(Abs(), base) && Gaps(Abs(), {})
          && exists i :: 0 <= i < |ring| && ring[i] == freep
    }

    /** And all of those bytes were obtained from sbrk. */
    ghost predicate Valid()
      reads this
    {
      && NULL < base < brk
      && (if freep == NULL then ring == [] && live == map[] && owner == map[] else Threaded())
      && (forall u :: u in owner ==> base < u < brk)
    }

    /** The static base header, before the first malloc. */
    constructor (b: int, top: int)
      requires NULL < b < top
      ensures Valid() && base == b && brk == top && freep == NULL
    {
      base, freep, ptr, size, brk := b, NULL, map[], map[], top;
      ring, live, owner := [], map[], map[];
    }

    /** free's search for the place of a block; it ends because the list is one ascending circle. */
    method FindSlot(bp: int) returns (p: int, ghost t: nat)
      requires Threaded() && bp > base && (forall i :: 0 <= i < |ring| ==> ring[i] != bp)
      ensures t == Slot(ring, bp) && p == ring[t]
      ensures p in ptr && ((bp > p && bp < ptr[p]) || (p >= ptr[p] && (bp > p || bp < ptr[p])))
    {
      hide LiveOk, Partition, Gaps, Blocks;
      LinkedFacts(ring, ptr, size, base);
      t := Slot(ring, bp);
      ghost var n := |ring|;
      ghost var j :| 0 <= j < n && ring[j] == freep;
      p := freep;
      StopsAtSlot(ring, ptr, size, base, bp, j);
      while !(bp > p && bp < ptr[p])
        invariant 0 <= j < n && p == ring[j]
        invariant bp > p && bp < ptr[p] ==> j == t
        decreases if j <= t then t - j else n - j + t
      {
        StopsAtSlot(ring, ptr, size, base, bp, j);
        if p >= ptr[p] && (bp > p || bp < ptr[p]) {
          break;
        }
        p := ptr[p];
        j := Wrap(j + 1, n);
        StopsAtSlot(ring, ptr, size, base, bp, j);
      }
    }

    /** The rest of free: link the block in behind p and merge it with the neighbours it touches. */
    method LinkIn(bp: int, p: int, ghost t: nat)
      requires CanFree(Abs(), base, bp, t) && p == ring[t]
      modifies this`freep, this`ptr, this`size, this`ring, this`live, this`owner
      ensures Abs() == old(Freed(Abs(), base, bp, t)) && freep == p
    {
      hide Linked, LiveOk, Partition, Gaps, Blocks, LinkUp, Freed, Slot, Ascending;
      ghost var s := Abs();
      ghost var f := Freed(s, base, bp, t);
      LinkUpFields(s, base, bp, t);
      var nxt := ptr[p];
      if bp + UNIT * size[bp] == nxt {
        size := size[bp := size[bp] + size[nxt]];
        ptr := ptr[bp := ptr[nxt]];
      } else {
        ptr := ptr[bp := nxt];
      }
      FreedFields(s, base, bp, t, ptr);
      if p + UNIT * size[p] == bp {
        size := size[p := size[p] + size[bp]];
        ptr := ptr[p := ptr[bp]];
      } else {
        ptr := ptr[p := bp];
      }
      ring, live, owner := f.ring, f.live, f.owner;
      freep := p;
    }

    /**
     free: the block leaves the live ones and joins the list, merged with a free neighbour on either
     side; no byte changes hands otherwise.
     */
    method Free(ap: int)
      requires Threaded() && ap - UNIT in live
      modifies this`freep, this`ptr, this`size, this`ring, this`live, this`owner
      ensures Threaded() && (old(Valid()) ==> Valid())
      ensures live == old(live) - {ap - UNIT}
      ensures owner.Keys == old(owner).Keys
      ensures forall u :: u in owner && old(owner[u]) in live ==> owner[u] == old(owner[u])
      ensures HasFit(old(live)[ap - UNIT])
      ensures old(forall k :: 0 <= k < |ring| ==> ring[k] < ap - UNIT) ==>
                AllTops(old(Abs()), Abs(), ap - UNIT)
    {
      hide Linked, LiveOk, Partition, Gaps, Blocks, LinkUp, Freed, Slot, Ascending;
      var bp := ap - UNIT;
      ghost var s := Abs();
      LiveFacts(s, base, bp);
      var p;
      ghost var t;
      p, t := FindSlot(bp);
      FreedSound(s, base, bp, t);
      FreedOwner(s, base, bp, t);
      FreedFit(s, base, bp, t);
      LinkIn(bp, p, t);
      assert ring[t] == freep;
      if forall k :: 0 <= k < |s.ring| ==> s.ring[k] < bp {
        forall i: nat | i < |ring| ensures Tops(s, Abs(), bp, i) { FreedLast(s, base, bp, t, i); }
      }
    }

    /** A free block big enough for nu units, if there is one: one trip round the circle. */
    ghost predicate HasFit(nu: nat)
      reads this
    {
      exists i :: 0 <= i < |ring| && ring[i] in size && size[ring[i]] >= nu
    }

    /** malloc's walk, from behind freep until a big enough block or back at freep. */
    method FindFit(nu: nat) returns (found: bool, prevp: int, p: int, ghost i: nat)
      requires Threaded() && nu >= 1
      ensures found <==> HasFit(nu)
      ensures found ==> 1 <= i < |ring| && p == ring[i] && prevp == ring[i - 1] && p in size && size[p] >= nu
    {
      hide Linked, LiveOk, Partition, Gaps, Blocks, Walked, Wrap;
      LinkedFacts(ring, ptr, size, base);
      ghost var n := |ring|;
      ghost var f :| 0 <= f < n && ring[f] == freep;
      prevp := freep;
      NextLink(ring, ptr, size, base, f);
      p := ptr[prevp];
      ghost var c, h := 1, f;
      WrapNext(f, 0, n);
      i := Wrap(f + 1, n);
      WalkedNone(ring, size, f, nu);
      while !(size[p] >= nu)
        invariant 1 <= c <= n && i == Wrap(f + c, n) && 0 <= i < n && p == ring[i]
        invariant 0 <= h < n && i == Wrap(h + 1, n) && prevp == ring[h]
        invariant Walked(ring, size, f, c, nu)
        decreases n - c
      {
        if p == freep {
          WrapBack(f, c, n);
          WalkedAll(ring, size, f, nu);
          return false, prevp, p, i;
        }
        NextLink(ring, ptr, size, base, i);
        WrapBack(f, c, n);
        WrapNext(f, c, n);
        WalkedNext(ring, size, f, c, nu);
        prevp, p := p, ptr[p];
        c, h := c + 1, i;
        i := Wrap(f + c, n);
      }
      found := true;
      WrapNext(h, 0, n);
    }

    /**
     morecore: sbrk either fails or hands out the bytes after `brk`, `gap` bytes further on if someone
     else has moved it. Not sane means sbrk's int argument lost bits: the header goes on the list with
     all its units, but the memory ends before the block does.
     */
    method Morecore(nu: nat, avail: bool, gap: nat) returns (ok: bool, sane: bool)
      requires Valid() && freep != NULL && nu >= 1 && !HasFit(nu)
      modifies this
      ensures ok <==> avail || AsInt(CoreUnits(nu) * UNIT) <= 0
      ensures sane <==> !ok || AsInt(CoreUnits(nu) * UNIT) == CoreUnits(nu) * UNIT
      ensures !ok ==> Abs() == old(Abs()) && freep == old(freep) && brk == old(brk)
      ensures Threaded() && live == old(live) && (sane ==> Valid())
      ensures ok ==>
                && brk == Sbrk(old(brk) + gap, AsInt(CoreUnits(nu) * UNIT))
                && HasFit(nu)
                && (forall u :: u in owner <==>
                    u in old(owner) || old(brk) + gap <= u < old(brk) + gap + UNIT * CoreUnits(nu))
                && (forall u :: u in old(owner) && old(owner[u]) in live ==> owner[u] == old(owner[u]))
                && (forall i :: 0 <= i < |ring| && ring[i] in size && size[ring[i]] >= nu ==>
                      End(size, ring[i]) == old(brk) + gap + UNIT * CoreUnits(nu))
    {
      hide Linked, LiveOk, Partition, Gaps, Blocks, Fresh, AllTops, AsInt, CoreUnits;
      CoreEnough(nu);
      var n := CoreUnits(nu);
      var add := AsInt(n * UNIT);
      ok := avail || add <= 0;
      sane := true;
      if !ok {
        return;
      }
      sane := add == n * UNIT;
      var hp := brk + gap;
      ghost var s := Abs();
      ghost var g := Grown(s, hp, n);
      GrownSound(s, base, hp, n, brk);
      BlocksBelow(s, base, brk);
      size := size[hp := n];
      brk := Sbrk(hp, add);
      live, owner := g.live, g.owner;
      assert Abs() == g;
      assert Threaded();
      Free(hp + UNIT);
      PutAndRemove(s.live, hp, n);
      FitSmaller(n, nu);
      OnlyFit(s, Abs(), hp, n, nu);
      GrownBytes(s, hp, n);
    }

    lemma FitSmaller(n: nat, nu: nat)
      requires HasFit(n) && nu <= n
      ensures HasFit(nu)
    {
      var i :| 0 <= i < |ring| && ring[i] in size && size[ring[i]] >= n;
      assert size[ring[i]] >= nu;
    }

    /** The body of malloc once p is big enough: all of it, or its tail, goes to the caller. */
    method Take(prevp: int, p0: int, nunits: nat, ghost i: nat) returns (r: int)
      requires Threaded() && 1 <= i < |ring| && p0 == ring[i] && prevp == ring[i - 1]
      requires p0 in size && size[p0] >= nunits >= 1
      modifies this`ptr, this`size, this`freep, this`ring, this`live, this`owner
      ensures Threaded() && (old(Valid()) ==> Valid()) && r != NULL
      ensures r - UNIT + UNIT * nunits == old(End(size, p0))
      ensures r - UNIT !in old(live) && live == old(live)[r - UNIT := nunits]
      ensures owner.Keys == old(owner).Keys
      ensures forall u :: u in owner && old(owner[u]) in old(live) ==> owner[u] == old(owner[u])
    {
      hide Linked, LiveOk, Partition, Gaps, Blocks;
      LinkedFacts(ring, ptr, size, base);
      InBlocks(Abs(), base, i);
      assert ring[0] < ring[i];
      var p := p0;
      ghost var s;
      if size[p] == nunits {
        TakeAllSound(Abs(), base, i);
        s := TakeAll(Abs(), i);
        ptr := ptr[prevp := ptr[p]];
      } else {
        TakeTailSound(Abs(), base, i, nunits);
        s := TakeTail(Abs(), i, nunits);
        size := size[p := size[p] - nunits];
        p := p + UNIT * size[p];
        size := size[p := nunits];
      }
      ring, live, owner := s.ring, s.live, s.owner;
      freep := prevp;
      assert Abs() == s && ring[i - 1] == prevp;
      r := p + UNIT;
    }

    /**
     malloc: nothing changes but the block handed out, which was free or newly obtained; morecore is
     called at most once, and only when no free block is big enough. Not sane, exactly if morecore was
     called and sbrk's argument lost bits, the block handed out ends beyond the memory obtained.
     */
    method Malloc(nbytes: nat, avail: bool, gap: nat) returns (r: int, calls: nat, sane: bool)
      requires Valid()
      modifies this
      ensures Threaded() && calls <= 1
      ensures calls == 0 <==> old(HasFit(UnitsFor(nbytes)))
      ensures r == NULL <==> calls == 1 && !avail && AsInt(CoreUnits(UnitsFor(nbytes)) * UNIT) > 0
      ensures !sane <==> calls == 1 && r != NULL
                         && AsInt(CoreUnits(UnitsFor(nbytes)) * UNIT) != CoreUnits(UnitsFor(nbytes)) * UNIT
      ensures (sane ==> Valid()) && (sane <==> Backed(Abs(), base, brk))
      ensures r == NULL ==> live == old(live) && owner == old(owner)
      ensures r != NULL ==> r - UNIT !in old(live) && live == old(live)[r - UNIT := UnitsFor(nbytes)]
      ensures r != NULL ==>
                forall u :: u in owner <==>
                    || u in old(owner)
                    || (calls == 1 && Within(old(brk) + gap, u, old(brk) + gap + UNIT * CoreUnits(UnitsFor(nbytes))))
      ensures forall u :: u in old(owner) && old(owner[u]) in old(live) ==> owner[u] == old(owner[u])
      ensures calls == 1 && r != NULL ==>
                && brk == Sbrk(old(brk) + gap, AsInt(CoreUnits(UnitsFor(nbytes)) * UNIT))
                && r - UNIT + UNIT * UnitsFor(nbytes) == old(brk) + gap + UNIT * CoreUnits(UnitsFor(nbytes))
      ensures !sane ==> brk < r - UNIT + UNIT * UnitsFor(nbytes)
    {
      hide Linked, LiveOk, Partition, Gaps, Blocks, Backed, AsInt, CoreUnits, Sbrk;
      var nunits := UnitsFor(nbytes);
      calls, r, sane := 0, NULL, true;
      if freep == NULL {
        ptr, size, freep := ptr[base := base], size[base := 0], base;
        ring := [base];
        OnlyBase(Abs(), base);
        assert ring[0] == freep;
      }
      while true
        invariant Threaded() && live == old(live) && r == NULL && calls <= 1 && (calls == 0 ==> sane)
        invariant (sane ==> Valid())
        invariant calls == 0 ==> owner == old(owner) && brk == old(brk) && (HasFit(nunits) <==> old(HasFit(nunits)))
        invariant calls == 1 ==> HasFit(nunits) && !old(HasFit(nunits))
                                 && (sane <==> AsInt(CoreUnits(nunits) * UNIT) == CoreUnits(nunits) * UNIT)
        invariant calls == 1 ==> (avail || AsInt(CoreUnits(nunits) * UNIT) <= 0)
                                 && brk == Sbrk(old(brk) + gap, AsInt(CoreUnits(nunits) * UNIT))
        invariant calls == 1 ==> forall i :: 0 <= i < |ring| && ring[i] in size && size[ring[i]] >= nunits ==>
                    End(size, ring[i]) == old(brk) + gap + UNIT * CoreUnits(nunits)
        invariant forall u :: u in owner <==>
                      || u in old(owner)
                      || (calls == 1 && Within(old(brk) + gap, u, old(brk) + gap + UNIT * CoreUnits(nunits)))
        invariant forall u :: u in old(owner) && old(owner[u]) in old(live) ==> owner[u] == old(owner[u])
        decreases 1 - calls
      {
        var found, prevp, p;
        ghost var i;
        found, prevp, p, i := FindFit(nunits);
        if found {
          r := Take(prevp, p, nunits, i);
          if sane {
            IsBacked(Abs(), base, brk);
          } else {
            LostBytes(old(brk) + gap, CoreUnits(nunits));
            LiveFacts(Abs(), base, r - UNIT);
            NotBacked(Abs(), base, r - UNIT, brk);
          }
          return;
        }
        var ok;
        ok, sane := Morecore(nunits, avail, gap);
        calls := calls + 1;
        if !ok {
          IsBacked(Abs(), base, brk);
          return;
        }
      }
    }
  }

  /**
   malloc(4294967295) on a new heap succeeds, and its block ends 4294967296 bytes beyond the memory the
   process has.
   */
  method MallocLargest(b: int, top: int) returns (r: int, beyond: int)
    requires NULL < b < top
    ensures r != NULL && beyond == 0x1_0000_0000
  {
    hide Linked, LiveOk, Partition, Gaps, Blocks;
    SbrkArgumentLost();
    var h := new Heap(b, top);
    var calls, sane;
    r, calls, sane := h.Malloc(0xFFFF_FFFF, true, 0);
    beyond := r - UNIT + UNIT * UnitsFor(0xFFFF_FFFF) - h.brk;
  }
}
