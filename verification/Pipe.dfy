/**
 kernel/pipe.c. A call to pipewrite or piperead is a series of turns, each from taking the pipe's lock
 to giving it up, in sleep or on return; turns of any number of readers and writers come in any order.
 */
module Pipe {

  const PIPESIZE := 512
  const UINT := 0x1_0000_0000

  type Byte = bv8

  /** How a turn ends: asleep, or with a return value. */
  datatype Next = Sleep | Ret(r: int)

  lemma SameSlot(k: nat)
    ensures k % UINT % PIPESIZE == k % PIPESIZE
  {
  }

  lemma OtherSlot(j: nat, k: nat)
    requires j < k < j + PIPESIZE
    ensures j % PIPESIZE != k % PIPESIZE
  {
  }

  /** The 32-bit counters tell an empty pipe and a full one from the rest, also when they have wrapped. */
  lemma CountersTell(r: nat, w: nat)
    requires r <= w <= r + PIPESIZE
    ensures r % UINT == w % UINT <==> r == w
    ensures w % UINT == (r % UINT + PIPESIZE) % UINT <==> w == r + PIPESIZE
  {
  }

  lemma NextCount(k: nat)
    ensures (k % UINT + 1) % UINT == (k + 1) % UINT
  {
  }

  /**
   A writer with bytes i0..n to go that is killed once it has written up to killedAt leaves a sleeping
   reader behind: it has put something in the pipe, and returns without a wakeup.
   */
  predicate StrandsReader(readers: bool, readopen: bool, i0: nat, n: nat, killedAt: nat, limit: nat) {
    readers && readopen && i0 < killedAt < n && killedAt <= i0 + PIPESIZE && killedAt <= limit
  }

  class Pipe {
    const data: array<Byte>
    var nread: nat
    var nwrite: nat
    var readopen: bool
    var writeopen: bool
    ghost var sent: seq<Byte>      // every byte ever written
    ghost var got: seq<Byte>       // every byte ever taken out
    ghost var readers: set<nat>    // asleep on &nread
    ghost var writers: set<nat>    // asleep on &nwrite

    ghost predicate Valid()
      reads this, data
    {
      && data.Length == PIPESIZE
      && nwrite == |sent| % UINT && nread == |got| % UINT
      && |got| <= |sent| <= |got| + PIPESIZE && got == sent[..|got|]
      && forall k: nat :: |got| <= k < |sent| ==> data[k % PIPESIZE] == sent[k]
    }

    /** No reader sleeps on a pipe with something to read, no writer on one with room or no reader. */
    ghost predicate WakeOk()
      reads this
    {
      && (readers != {} ==> |got| == |sent| && writeopen)
      && (writers != {} ==> |sent| == |got| + PIPESIZE && readopen)
    }

    constructor ()
      ensures Valid() && WakeOk() && sent == got == [] && readopen && writeopen && readers == {} && writers == {}
      ensures fresh(data)
    {
      data := new Byte[PIPESIZE];
      nread, nwrite, readopen, writeopen := 0, 0, true, true;
      sent, got, readers, writers := [], [], {}, {};
    }

    /** pi->data[pi->nwrite++ % PIPESIZE] = ch, when the pipe has room. */
    method Put(ch: Byte)
      requires Valid() && |sent| < |got| + PIPESIZE
      modifies `nwrite, `sent, data
      ensures Valid() && sent == old(sent) + [ch]
    {
      SameSlot(|sent|);
      NextCount(|sent|);
      forall k: nat | |got| <= k < |sent| ensures k % PIPESIZE != |sent| % PIPESIZE { OtherSlot(k, |sent|); }
      data[nwrite % PIPESIZE] := ch;
      nwrite := (nwrite + 1) % UINT;
      sent := sent + [ch];
    }

    /** ch = pi->data[pi->nread++ % PIPESIZE], when the pipe holds something. */
    method Take() returns (ch: Byte)
      requires Valid() && |got| < |sent|
      modifies `nread, `got
      ensures Valid() && ch == sent[|old(got)|] && got == old(got) + [ch]
    {
      SameSlot(|got|);
      NextCount(|got|);
      ch := data[nread % PIPESIZE];
      nread := (nread + 1) % UINT;
      got := got + [ch];
    }

    /**
     One turn of pipewrite by process pid, with i0 bytes of src already written. The process is seen to
     be killed once killedAt bytes are written; copies from src fail from limit on.
     */
    method WriteTurn(pid: nat, src: seq<Byte>, i0: nat, killedAt: nat, limit: nat) returns (i: nat, next: Next)
      requires Valid() && i0 <= |src|
      modifies `nwrite, `sent, `readers, `writers, data
      ensures Valid() && i0 <= i <= |src| && sent == old(sent) + src[i0..i]
      ensures next == Ret(-1) <==> i < |src| && (!readopen || i >= killedAt)
      ensures next == Sleep <==> i < |src| && readopen && i < killedAt && |sent| == |got| + PIPESIZE
      ensures next == Sleep ==> readers == {} && writers == old(writers) + {pid}
      ensures next == Ret(-1) ==> readers == old(readers)
      ensures next.Ret? && next != Ret(-1) ==> next == Ret(i) && (i == |src| || i >= limit) && readers == {}
      ensures i > i0 ==> readopen && i <= killedAt && i <= limit
      ensures next.Ret? ==> writers == old(writers)
      ensures old(WakeOk()) ==> (WakeOk() <==> !StrandsReader(old(readers) != {}, readopen, i0, |src|, killedAt, limit))
    {
      i := i0;
      while i < |src|
        invariant Valid() && i0 <= i <= |src| && sent == old(sent) + src[i0..i]
        invariant readers == old(readers) && writers == old(writers)
        invariant i > i0 ==> readopen && i <= killedAt && i <= limit
      {
        if !readopen || i >= killedAt { return i, Ret(-1); }
        CountersTell(|got|, |sent|);
        if nwrite == (nread + PIPESIZE) % UINT {
          readers := {};
          writers := writers + {pid};
          return i, Sleep;
        }
        if i >= limit { break; }
        Put(src[i]);
        i := i + 1;
      }
      readers := {};
      return i, Ret(i);
    }

    /** One turn of piperead by process pid; copies to the caller fail from limit on. */
    method ReadTurn(pid: nat, n: int, killed: bool, limit: nat) returns (out: seq<Byte>, next: Next)
      requires Valid()
      modifies `nread, `got, `readers, `writers
      ensures Valid() && out <= sent[|old(got)|..] && old(got) + out <= got
      ensures |out| <= limit && |out| <= if n < 0 then 0 else n
      ensures |got| == |old(got)| + |out| +
          (if next == Ret(|out|) && |out| == limit && |out| < n && |old(got)| + |out| < |sent| then 1 else 0)
      ensures next == Sleep || next == Ret(-1) <==> old(|got| == |sent|) && writeopen
      ensures next == Sleep || next == Ret(-1) ==>
          out == [] && killed == next.Ret? && readers == old(readers) + if killed then {} else {pid}
      ensures next == Sleep || next == Ret(-1) ==> writers == old(writers)
      ensures next.Ret? && next != Ret(-1) ==>
          next == Ret(|out|) && (n <= |out| || |out| == limit || |old(got)| + |out| == |sent|)
      ensures next.Ret? && next != Ret(-1) ==> writers == {} && readers == old(readers)
      ensures old(WakeOk()) ==> WakeOk()
    {
      out := [];
      CountersTell(|got|, |sent|);
      if nread == nwrite && writeopen {
        if killed { return out, Ret(-1); }
        readers := readers + {pid};
        return out, Sleep;
      }
      var i := 0;
      while i < n
        invariant Valid() && |out| == i <= limit && (if n < 0 then i == 0 else i <= n) && got == old(got) + out
        invariant readers == old(readers)
      {
        CountersTell(|got|, |sent|);
        if nread == nwrite { break; }
        var ch := Take();
        if i >= limit { break; }
        out := out + [ch];
        i := i + 1;
      }
      writers := {};
      return out, Ret(i);
    }

    /** kill makes a sleeping process RUNNABLE; no other sleeper is affected. */
    method Kill(pid: nat)
      requires Valid()
      modifies `readers, `writers
      ensures Valid() && (old(WakeOk()) ==> WakeOk())
      ensures readers == old(readers) - {pid} && writers == old(writers) - {pid}
    {
      readers, writers := readers - {pid}, writers - {pid};
    }

    /** pipeclose: once both ends are closed the page goes back, and nobody sleeps on it. */
    method Close(writable: bool) returns (freed: bool)
      requires Valid()
      modifies `readopen, `writeopen, `readers, `writers
      ensures Valid() && (old(WakeOk()) ==> WakeOk())
      ensures writeopen == (old(writeopen) && !writable) && readopen == (old(readopen) && writable)
      ensures readers == (if writable then {} else old(readers)) && writers == (if writable then old(writers) else {})
      ensures freed <==> !readopen && !writeopen
      ensures freed && old(WakeOk()) ==> readers == writers == {}
    {
      if writable {
        writeopen := false;
        readers := {};
      } else {
        readopen := false;
        writers := {};
      }
      freed := !readopen && !writeopen;
    }
  }

  /** A reader waits, a writer is killed after its first byte, and the reader stays asleep beside that byte. */
  method KilledWriterStrandsReader(b: Byte) returns (p: Pipe)
    ensures fresh(p) && p.Valid() && !p.WakeOk() && p.readers == {1} && p.sent == [b] && p.got == []
  {
    p := new Pipe();
    var out, next := p.ReadTurn(1, 1, false, 1);
    var i;
    i, next := p.WriteTurn(2, [b, b], 0, 1, 2);
    assert i == 1 && [b, b][0..1] == [b];
  }
}
