/** The growing circular byte queue in which the decoder stages headers. */
module RingBuffers {
  import opened Messages

  /** A call either returns or panics, on a slice bound or on a division by zero. */
  datatype Outcome<+T> = Done(value: T) | Panic

  /** A position on a circle of `n` places, for a number that went round at most once. */
  function Wrap(i: nat, n: nat): nat
    requires i < 2 * n
  {
    if i < n then i else i - n
  }

  lemma WrapIsRemainder(i: nat, n: nat)
    requires 0 < n && i < 2 * n
    ensures i % n == Wrap(i, n)
  {
    if i >= n {
      assert i == n * 1 + (i - n);
    }
  }

  predicate Fits(store: bytes, start: nat, size: nat)
  {
    size <= |store| && (start < |store| || (|store| == 0 && start == 0))
  }

  /** The bytes held in a ring of the given storage, oldest first. */
  function Held(store: bytes, start: nat, size: nat): (held: bytes)
    requires Fits(store, start, size)
    ensures |held| == size
    ensures forall i :: 0 <= i < size ==> held[i] == store[Wrap(start + i, |store|)]
  {
    if start + size <= |store| then store[start..start + size]
    else store[start..] + store[..start + size - |store|]
  }

  lemma HeldAfterTaking(store: bytes, start: nat, size: nat, n: nat)
    requires Fits(store, start, size) && n <= size && |store| > 0
    ensures Held(store, Wrap(start + n, |store|), size - n) == Held(store, start, size)[n..]
  {
    var rest := Held(store, Wrap(start + n, |store|), size - n);
    forall i | 0 <= i < size - n ensures rest[i] == Held(store, start, size)[n..][i] {}
  }

  /** Two copies one after the other put both pieces in front of what was there. */
  lemma Stitched(was: bytes, once: bytes, twice: bytes, a: bytes, b: bytes)
    requires |a| + |b| <= |was| && once == a + was[|a|..] && twice == once[..|a|] + b + once[|a| + |b|..]
    ensures twice == a + b + was[|a| + |b|..]
  {
  }

  lemma HeldInTwoPieces(store: bytes, start: nat, size: nat, m: nat)
    requires Fits(store, start, size) && start + size > |store| && m <= start + size - |store|
    ensures Held(store, start, size)[..|store| - start + m] == store[start..] + store[..m]
  {
  }

  /** The storage after writing from place `at` on, and on from the front what is left. */
  function Spread(store: bytes, at: nat, p: bytes): (spread: bytes)
    requires at <= |store| && |p| <= |store|
    ensures |spread| == |store|
  {
    var room := |store| - at;
    if |p| <= room then store[..at] + p + store[at + |p|..]
    else p[room..] + store[|p| - room..at] + p[..room]
  }

  /** Writing behind the content appends to it. */
  lemma HeldAfterWriting(store: bytes, start: nat, size: nat, p: bytes)
    requires Fits(store, start, size) && size + |p| <= |store| && start + size <= |store|
    ensures Held(Spread(store, start + size, p), start, size + |p|) == Held(store, start, size) + p
  {
    var was, now := Held(store, start, size), Held(Spread(store, start + size, p), start, size + |p|);
    forall i | 0 <= i < size + |p| ensures now[i] == (was + p)[i] {}
  }

  // ---- What a ring does, without its storage ---------------------------------------------

  datatype Ring = Ring(content: bytes, start: nat, capacity: nat)
  {
    predicate Valid() { |content| <= capacity && (start < capacity || start == capacity == 0) }

    /** Appending grows a ring that has no room; one that has room but goes around its end
        cannot be appended to. */
    function Append(p: bytes): Outcome<Ring>
      requires Valid()
    {
      if |content| + |p| > capacity then Done(Ring(content + p, 0, |content| + |p|))
      else if start + |content| > capacity then Panic
      else Done(Ring(content + p, start, capacity))
    }

    function Drop(want: nat): Ring
      requires Valid()
    {
      var n := Min(want, |content|);
      Ring(content[n..], if capacity == 0 then 0 else Wrap(start + n, capacity), capacity)
    }

    /** Slicing takes the remainder by the capacity even when there is nothing to take. */
    function Cut(want: nat): Outcome<Ring>
      requires Valid()
    {
      if capacity == 0 then Panic else Done(Drop(want))
    }
  }

  datatype Op = Put(p: bytes) | Get(want: nat) | Slice(want: nat)

  /** A sequence of writes and of reads or slices: the ring at the end with all that was
      taken out on the way. */
  function Perform(r: Ring, ops: seq<Op>): Outcome<(Ring, bytes)>
    requires r.Valid()
    decreases |ops|
  {
    if ops == [] then Done((r, []))
    else match ops[0]
      case Put(p) =>
        (match r.Append(p)
         case Panic => Panic
         case Done(r') => Perform(r', ops[1..]))
      case Get(want) => Taken(r, want, Perform(r.Drop(want), ops[1..]))
      case Slice(want) =>
        (match r.Cut(want)
         case Panic => Panic
         case Done(r') => Taken(r, want, Perform(r', ops[1..])))
  }

  function Taken(r: Ring, want: nat, later: Outcome<(Ring, bytes)>): Outcome<(Ring, bytes)>
  {
    match later
    case Panic => Panic
    case Done(end) => Done((end.0, r.content[..Min(want, |r.content|)] + end.1))
  }

  function AllPut(ops: seq<Op>): bytes
  {
    if ops == [] then [] else if ops[0].Put? then ops[0].p + AllPut(ops[1..]) else AllPut(ops[1..])
  }

  lemma TakenFirst(content: bytes, n: nat, taken: bytes, left: bytes, puts: bytes)
    requires n <= |content| && taken + left == content[n..] + puts
    ensures (content[..n] + taken) + left == content + puts
  {
    Joined(content[..n], taken, left);
    Joined(content[..n], content[n..], puts);
    assert content[..n] + content[n..] == content;
  }

  /** First in, first out, around the end and across growth: what was taken, followed by what
      is left, is what was there followed by all that was written. */
  lemma {:induction false} PerformIsFifo(r: Ring, ops: seq<Op>, end: Ring, taken: bytes)
    requires r.Valid() && Perform(r, ops) == Done((end, taken))
    ensures end.Valid() && taken + end.content == r.content + AllPut(ops)
    decreases |ops|
  {
    if ops == [] {
    } else {
      match ops[0] {
        case Put(p) =>
          var r' := r.Append(p).value;
          PerformIsFifo(r', ops[1..], end, taken);
          Joined(r.content, p, AllPut(ops[1..]));
        case _ =>
          var want := ops[0].want;
          var n := Min(want, |r.content|);
          var rest := Perform(r.Drop(want), ops[1..]).value.1;
          PerformIsFifo(r.Drop(want), ops[1..], end, rest);
          TakenFirst(r.content, n, rest, end.content, AllPut(ops[1..]));
      }
    }
  }

  // ---- Staging a header ------------------------------------------------------------------

  function Flat(chunks: seq<bytes>): bytes
  {
    if chunks == [] then [] else chunks[0] + Flat(chunks[1..])
  }

  /** io.CopyN into the ring: the bytes arrive in arbitrary non-empty chunks. */
  function Stage(r: Ring, chunks: seq<bytes>): Outcome<Ring>
    requires r.Valid()
    decreases |chunks|
  {
    if chunks == [] then Done(r)
    else match r.Append(chunks[0])
      case Panic => Panic
      case Done(r') => Stage(r', chunks[1..])
  }

  /** Staging what fits panics exactly when some chunk but the last ends past the end of the
      storage: then the next one is written into a ring that goes around. */
  lemma {:induction false} StagingPanicsExactlyWhen(r: Ring, chunks: seq<bytes>)
    requires r.Valid() && r.start + |r.content| <= r.capacity && |r.content| + |Flat(chunks)| <= r.capacity
    requires forall i :: 0 <= i < |chunks| ==> chunks[i] != []
    ensures Stage(r, chunks).Panic? <==>
              chunks != [] && r.start + |r.content| + |Flat(chunks[..|chunks| - 1])| > r.capacity
    ensures Stage(r, chunks).Done? ==> Stage(r, chunks).value == r.(content := r.content + Flat(chunks))
    decreases |chunks|
  {
    if chunks == [] {
    } else if |chunks| == 1 {
      assert chunks[1..] == [] && chunks[..0] == [];
    } else {
      var next := r.(content := r.content + chunks[0]);
      assert r.Append(chunks[0]) == Done(next);
      var rest, front := chunks[1..], chunks[..|chunks| - 1];
      assert front[0] == chunks[0] && front[1..] == rest[..|rest| - 1];
      if next.start + |next.content| <= r.capacity {
        StagingPanicsExactlyWhen(next, rest);
      } else {
        assert |Flat(rest)| > 0 && rest[0] == chunks[1] && |rest[0]| <= |Flat(rest)|;
        assert next.Append(rest[0]).Panic?;
      }
    }
  }

  /** Messages whose headers all have one size that divides the capacity: whatever the chunks,
      nothing panics, every header comes back as one uncopied slice, and the start stays on a
      multiple of that size. `slot` counts from the front of the storage. */
  lemma {:induction false} AlignedHeadersNeverWrap(h: nat, slots: nat, slot: nat, headers: seq<seq<bytes>>)
    requires h > 0 && slot < slots
    requires forall i :: 0 <= i < |headers| ==>
               |Flat(headers[i])| == h && forall j :: 0 <= j < |headers[i]| ==> headers[i][j] != []
    ensures Through(Ring([], slot * h, slots * h), h, slots, headers)
    decreases |headers|
  {
    SlotsFit(h, slots, slot);
    assert slot * h == Place(slot, h);
    var r := Ring([], slot * h, slots * h);
    if headers != [] {
      FrontIsShorter(headers[0]);
      StagingPanicsExactlyWhen(r, headers[0]);
      var full := r.(content := Flat(headers[0]));
      assert Stage(r, headers[0]) == Done(full) by { assert r.content + Flat(headers[0]) == Flat(headers[0]); }
      var next := if slot + 1 == slots then 0 else slot + 1;
      assert full.Drop(h) == Ring([], next * h, slots * h);
      AlignedHeadersNeverWrap(h, slots, next, headers[1..]);
    }
  }

  lemma SlotsFit(h: nat, slots: nat, slot: nat)
    requires h > 0 && slot < slots
    ensures slot * h + h <= slots * h && (slot + 1) * h == slot * h + h
    ensures slot + 1 < slots ==> slot * h + h < slots * h
  {
    assert slots * h == slot * h + (slots - slot) * h;
    assert (slots - slot) * h == h + (slots - slot - 1) * h;
    if slot + 1 < slots { assert (slots - slot - 1) * h == h + (slots - slot - 2) * h; }
  }

  lemma {:induction false} FrontIsShorter(chunks: seq<bytes>)
    ensures chunks != [] ==> |Flat(chunks[..|chunks| - 1])| <= |Flat(chunks)|
    decreases |chunks|
  {
    if |chunks| > 1 {
      FrontIsShorter(chunks[1..]);
      assert chunks[..|chunks| - 1][1..] == chunks[1..][..|chunks| - 2];
    }
  }

  function Place(slot: nat, h: nat): nat { slot * h }

  /** Staging and slicing out the headers one after the other: each comes back whole and
      uncopied, and leaves the ring empty; before each and after the last the start is on one of
      the slots. */
  ghost predicate Through(r: Ring, h: nat, slots: nat, headers: seq<seq<bytes>>)
    decreases |headers|
  {
    && (exists slot: nat :: slot < slots && r.start == Place(slot, h))
    && (headers == [] ||
      (r.Valid() && Stage(r, headers[0]).Done?
       && var full := Stage(r, headers[0]).value;
       && full.Valid() && full.content == Flat(headers[0]) && full.start + |full.content| <= full.capacity
       && full.Drop(|full.content|).content == []
       && Through(full.Drop(|full.content|), h, slots, headers[1..])))
  }

  /** A wrapped ring with room to spare cannot be written to: 3 of 4 places, starting at 2. */
  lemma WrappedWritePanics()
    ensures Ring([1, 2, 3], 2, 4).Append([4]).Panic?
  {
  }

  class RingBuffer {
    var buf: array<byte>
    var start: nat
    var size: nat

    ghost predicate Valid()
      reads this
    {
      size <= buf.Length && (start < buf.Length || (buf.Length == 0 && start == 0))
    }

    ghost function Contents(): (s: bytes)
      requires Valid()
      reads this, buf
      ensures |s| == size
    {
      Held(buf[..], start, size)
    }

    ghost function View(): Ring
      requires Valid()
      reads this, buf
    {
      Ring(Contents(), start, buf.Length)
    }

    constructor (capacity: nat)
      ensures Valid() && fresh(buf) && View() == Ring([], 0, capacity)
    {
      buf := new byte[capacity](_ => 0);
      start, size := 0, 0;
    }

    /** End of file when there is nothing, otherwise as much as fits. */
    method Read(p: array<byte>) returns (n: nat, eof: bool)
      requires Valid() && p != buf
      modifies this`start, this`size, p
      ensures Valid() && buf[..] == old(buf[..])
      ensures eof <==> old(size) == 0
      ensures n == Min(p.Length, old(size))
      ensures p[..] == old(Contents())[..n] + old(p[n..])
      ensures View() == old(View()).Drop(p.Length)
    {
      n, eof := 0, size == 0;
      if !eof {
        n := CopyOut(p);
        Advance(n);
      }
    }

    /** read: the content is copied in one piece or in two; nothing is consumed. */
    method CopyOut(p: array<byte>) returns (n: nat)
      requires Valid() && p != buf && size > 0
      modifies p
      ensures buf[..] == old(buf[..])
      ensures n == Min(p.Length, size)
      ensures p[..] == old(Contents())[..n] + old(p[n..])
    {
      ghost var was := p[..];
      n := FirstPiece(p);
      if start + size > buf.Length && p.Length > n {
        var behind := Behind();
        n := FillUp(p, n, behind, was);
      }
    }

    /** The piece that ends where the content or the storage ends. */
    method FirstPiece(p: array<byte>) returns (n: nat)
      requires Valid() && p != buf
      modifies p
      ensures n == Min(p.Length, Min(start + size, buf.Length) - start)
      ensures p[..] == Contents()[..n] + old(p[n..])
      ensures p[..] == buf[start..start + n] + old(p[n..])
    {
      n := CopyInto(p, 0, buf, start, Min(start + size, buf.Length));
      assert Contents()[..n] == buf[start..start + n];
    }

    /** The place behind a content that goes around the end. */
    method Behind() returns (at: nat)
      requires Valid() && start + size > buf.Length
      ensures at == start + size - buf.Length
    {
      WrapIsRemainder(start + size, buf.Length);
      at := (start + size) % buf.Length;
    }

    /** The second piece, from the front of the storage. */
    method FillUp(p: array<byte>, first: nat, behind: nat, ghost was: bytes) returns (n: nat)
      requires Valid() && p != buf && start + size > buf.Length && behind == start + size - buf.Length
      requires first == buf.Length - start < p.Length == |was|
      requires p[..] == buf[start..] + was[first..]
      modifies p
      ensures n == Min(p.Length, size)
      ensures p[..] == Contents()[..n] + was[n..]
    {
      ghost var once := p[..];
      var m := CopyInto(p, first, buf, 0, behind);
      n := first + m;
      Stitched(was, once, p[..], buf[start..], buf[..m]);
      HeldInTwoPieces(buf[..], start, size, m);
      assert buf[..][start..] == buf[start..] && buf[..][..m] == buf[..m];
    }

    /** Consume: both fields move on by what was taken. */
    method Advance(n: nat)
      requires Valid() && n <= size && buf.Length > 0
      modifies this`start, this`size
      ensures Valid() && size == old(size) - n && start == Wrap(old(start) + n, buf.Length)
      ensures Contents() == old(Contents())[n..]
    {
      WrapIsRemainder(start + n, buf.Length);
      HeldAfterTaking(buf[..], start, size, n);
      start := (start + n) % buf.Length;
      size := size - n;
    }

    /** trySlice: up to `want` bytes, as a slice of the storage when they lie in one piece. */
    method Slice(want: nat) returns (data: bytes, sliced: bool)
      requires Valid()
      ensures data == Contents()[..Min(want, size)]
      ensures sliced <==> size > 0 && start + Min(want, size) <= buf.Length
    {
      if size == 0 {
        return [], false;
      }
      var n := Min(want, size);
      if start + n <= buf.Length {
        return buf[start..start + n], true;
      }
      var copy := new byte[n](_ => 0);
      var m := CopyOut(copy);
      return copy[..m], false;
    }

    /** Takes out what trySlice finds; a ring without storage divides by zero. */
    method TrySlice(want: nat) returns (r: Outcome<(bytes, bool)>)
      requires Valid()
      modifies this`start, this`size
      ensures Valid()
      ensures r.Panic? <==> buf.Length == 0
      ensures r.Panic? ==> View() == old(View())
      ensures r.Done? ==>
                var n := Min(want, old(size));
                && old(View()).Cut(want) == Done(View())
                && r.value.0 == old(Contents())[..n]
                && (r.value.1 <==> old(size) > 0 && old(start) + n <= buf.Length)
    {
      var data, sliced := Slice(want);
      if buf.Length == 0 {
        return Panic;
      }
      Advance(|data|);
      return Done((data, sliced));
    }

    /** The content moves to the front of new storage that is just large enough. */
    method Grow(p: bytes)
      requires Valid()
      modifies this
      ensures Valid() && fresh(buf) && View() == Ring(old(Contents()) + p, 0, old(size) + |p|)
    {
      var data, _ := Slice(size);
      buf := new byte[|data + p|](i requires 0 <= i < |data + p| => (data + p)[i]);
      assert buf[..] == data + p && data == old(Contents());
      start, size := 0, size + |p|;
      assert Contents() == data + p;
    }

    /** Appends, into new storage when there is not enough room. Without growing, the tail is
        taken as a slice from `start + size` on, which panics when that is past the end. */
    method Write(p: bytes) returns (r: Outcome<nat>)
      requires Valid()
      modifies this, buf
      ensures Valid()
      ensures if old(size) + |p| <= old(buf.Length) then buf == old(buf) else fresh(buf)
      ensures r.Panic? <==> old(start) + old(size) > old(buf.Length) && old(size) + |p| <= old(buf.Length)
      ensures r.Panic? ==> View() == old(View())
      ensures r.Done? ==> r.value == |p| && old(View()).Append(p) == Done(View())
    {
      if size + |p| > buf.Length {
        Grow(p);
        return Done(|p|);
      }
      if start + size > buf.Length {
        return Panic;
      }
      HeldAfterWriting(buf[..], start, size, p);
      WriteAround(start + size, p);
      size := size + |p|;
      return Done(|p|);
    }

    method WriteAround(at: nat, p: bytes)
      requires at <= buf.Length && |p| <= buf.Length
      modifies buf
      ensures buf[..] == Spread(old(buf[..]), at, p)
    {
      var n := Min(buf.Length - at, |p|);
      forall i | 0 <= i < n { buf[at + i] := p[i]; }
      if |p| > n {
        forall i | 0 <= i < |p| - n { buf[i] := p[n + i]; }
      }
      assert buf[..] == Spread(old(buf[..]), at, p);
    }
  }

  /** Go's copy of src[from..to] to dst[at..]. */
  method CopyInto(dst: array<byte>, at: nat, src: array<byte>, from: nat, to: nat) returns (n: nat)
    requires at <= dst.Length && from <= to <= src.Length && dst != src
    modifies dst
    ensures n == Min(dst.Length - at, to - from)
    ensures dst[..] == old(dst[..at]) + src[from..from + n] + old(dst[at + n..])
  {
    n := Min(dst.Length - at, to - from);
    forall i | 0 <= i < n { dst[at + i] := src[from + i]; }
    assert dst[..] == old(dst[..at]) + src[from..from + n] + old(dst[at + n..]);
  }
}
