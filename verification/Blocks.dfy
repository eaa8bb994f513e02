/** Disk blocks as bytes: bits of the free map, and little-endian words of an indirect block. */
module Blocks {

  const BSIZE := 1024
  const NINDIRECT := 256    // BSIZE / sizeof(uint)

  type Byte = bv8
  type Block = b: seq<Byte> | |b| == BSIZE witness seq(BSIZE, _ => 0)

  // ---- bits ----

  /** 1 << k. */
  function Mask(k: nat): Byte
    requires k < 8
  {
    if k == 0 then 1 else if k == 1 then 2 else if k == 2 then 4 else if k == 3 then 8
    else if k == 4 then 16 else if k == 5 then 32 else if k == 6 then 64 else 128
  }

  predicate BitOf(x: Byte, k: nat)
    requires k < 8
  {
    x & Mask(k) != 0
  }

  function SetTo(x: Byte, k: nat, v: bool): Byte
    requires k < 8
  {
    if v then x | Mask(k) else x & !Mask(k)
  }

  lemma SetToBit(x: Byte, k: nat, v: bool, j: nat)
    requires k < 8 && j < 8
    ensures BitOf(SetTo(x, k, v), j) == if j == k then v else BitOf(x, j)
  {
  }

  // ---- words ----

  function Word(b: Block, j: nat): nat
    requires j < NINDIRECT
  {
    b[4 * j] as nat + 256 * (b[4 * j + 1] as nat) + 65536 * (b[4 * j + 2] as nat) + 16777216 * (b[4 * j + 3] as nat)
  }

  function PutWord(b: Block, j: nat, v: nat): Block
    requires j < NINDIRECT && v < 0x1_0000_0000
  {
    b[4 * j := (v % 256) as Byte][4 * j + 1 := (v / 256 % 256) as Byte]
    [4 * j + 2 := (v / 65536 % 256) as Byte][4 * j + 3 := (v / 16777216) as Byte]
  }

  lemma ByteBack(v: nat)
    requires v < 256
    ensures (v as Byte) as nat == v
  {
    if v < 16 {} else if v < 32 {} else if v < 64 {} else if v < 128 {} else if v < 192 {} else {}
  }

  lemma WordSplit(v: nat)
    requires v < 0x1_0000_0000
    ensures v / 16777216 < 256
    ensures v % 256 + 256 * (v / 256 % 256) + 65536 * (v / 65536 % 256) + 16777216 * (v / 16777216) == v
  {
  }

  lemma PutWordWord(b: Block, j: nat, v: nat, i: nat)
    requires j < NINDIRECT && v < 0x1_0000_0000 && i < NINDIRECT
    ensures Word(PutWord(b, j, v), i) == if i == j then v else Word(b, i)
  {
    WordSplit(v);
    ByteBack(v % 256);
    ByteBack(v / 256 % 256);
    ByteBack(v / 65536 % 256);
    ByteBack(v / 16777216);
  }
}
