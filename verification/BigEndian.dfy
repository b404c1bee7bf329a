/** Fixed-width big-endian integers, as encoding/binary writes them. */
module BigEndian {
  import opened Messages

  function Radix(width: nat): nat { if width == 0 then 1 else 256 * Radix(width - 1) }

  /** The low `width` bytes of `n`, most significant first: higher ones are cut off. */
  function Put(n: nat, width: nat): (s: bytes)
    ensures |s| == width
  {
    if width == 0 then [] else Put(n / 256, width - 1) + [n % 256]
  }

  function Get(s: bytes): nat
  {
    if s == [] then 0 else 256 * Get(s[..|s| - 1]) + s[|s| - 1]
  }

  lemma {:induction false} GetOfPut(n: nat, width: nat)
    requires n < Radix(width)
    ensures Get(Put(n, width)) == n
  {
    if width > 0 {
      GetOfPut(n / 256, width - 1);
      assert Put(n, width)[..width - 1] == Put(n / 256, width - 1);
    }
  }

  lemma {:induction false} PutOfGet(s: bytes)
    ensures Get(s) < Radix(|s|) && Put(Get(s), |s|) == s
  {
    if s != [] {
      var front, last := s[..|s| - 1], s[|s| - 1];
      PutOfGet(front);
      assert Get(s) / 256 == Get(front) && Get(s) % 256 == last;
      assert s == front + [last];
    }
  }

  lemma Radixes()
    ensures Radix(4) == 0x1_0000_0000 && Radix(8) == 0x1_0000_0000_0000_0000
  {
    assert Radix(1) == 256 && Radix(2) == 0x1_0000 && Radix(3) == 0x100_0000 && Radix(4) == 0x1_0000_0000;
    assert Radix(5) == 0x100_0000_0000 && Radix(6) == 0x1_0000_0000_0000 && Radix(7) == 0x100_0000_0000_0000;
  }

  function Put32(n: uint32): bytes { Put(n, 4) }
  function Put64(n: uint64): bytes { Put(n, 8) }

  function Get32(s: bytes): uint32
    requires |s| == 4
  {
    Radixes();
    PutOfGet(s);
    Get(s)
  }

  function Get64(s: bytes): uint64
    requires |s| == 8
  {
    Radixes();
    PutOfGet(s);
    Get(s)
  }

  lemma Get32OfPut32(n: uint32)
    ensures Get32(Put32(n)) == n
  {
    Radixes();
    GetOfPut(n, 4);
  }

  lemma Get64OfPut64(n: uint64)
    ensures Get64(Put64(n)) == n
  {
    Radixes();
    GetOfPut(n, 8);
  }

  lemma Put64OfGet64(s: bytes)
    requires |s| == 8
    ensures Put64(Get64(s)) == s
  {
    PutOfGet(s);
  }
}
