/**
  Copying between bytevectors and foreign memory: eight bytes at a time through a native-order word,
  then the tail byte by byte. The word loop is proved to be a byte copy for either byte order.
 */
module BlockCopy {
  import opened Common

  datatype ByteOrder = LittleEndian | BigEndian

  // --- Words -----------------------------------------------------------------------------------------

  function LittleWord(b: seq<byte>): nat {
    if b == [] then 0 else b[0] as nat + 256 * LittleWord(b[1..])
  }

  function LittleBytes(w: nat, n: nat): (b: seq<byte>)
    ensures |b| == n
  {
    if n == 0 then [] else [(w % 256) as byte] + LittleBytes(w / 256, n - 1)
  }

  function Reversed(b: seq<byte>): (r: seq<byte>)
    ensures |r| == |b|
  {
    seq(|b|, i requires 0 <= i < |b| => b[|b| - 1 - i])
  }

  /** The number a machine of the given order sees in these bytes. */
  function Word(b: seq<byte>, order: ByteOrder): nat {
    if order.LittleEndian? then LittleWord(b) else LittleWord(Reversed(b))
  }

  /** The `n` bytes a machine of the given order stores for a number. */
  function WordBytes(w: nat, n: nat, order: ByteOrder): (b: seq<byte>)
    ensures |b| == n
  {
    if order.LittleEndian? then LittleBytes(w, n) else Reversed(LittleBytes(w, n))
  }

  lemma LowByte(x: nat, q: nat)
    requires x < 256
    ensures (x + 256 * q) % 256 == x && (x + 256 * q) / 256 == q
  {
  }

  lemma {:induction false} LittleRoundTrip(b: seq<byte>)
    ensures LittleBytes(LittleWord(b), |b|) == b
  {
    if b != [] {
      var q, rest := LittleWord(b[1..]), b[1..];
      LowByte(b[0] as nat, q);
      LittleRoundTrip(rest);
      calc {
        LittleBytes(LittleWord(b), |b|);
        [b[0]] + LittleBytes(q, |rest|);
        [b[0]] + rest;
        b;
      }
    }
  }

  lemma ReversedTwice(b: seq<byte>)
    ensures Reversed(Reversed(b)) == b
  {
  }

  /** Storing the loaded word gives the bytes back: no order of bytes can be told apart by the copy. */
  lemma WordRoundTrip(b: seq<byte>, order: ByteOrder)
    ensures WordBytes(Word(b, order), |b|, order) == b
  {
    LittleRoundTrip(b);
    LittleRoundTrip(Reversed(b));
    ReversedTwice(b);
  }

  lemma {:induction false} LittleFits(b: seq<byte>)
    requires |b| <= 8
    ensures LittleWord(b) < Power256(|b|)
  {
    if b != [] {
      LittleFits(b[1..]);
    }
  }

  function Power256(n: nat): nat { if n == 0 then 1 else 256 * Power256(n - 1) }

  /** Access to eight bytes as one word: aligned and in range. */
  predicate WordAccess(a: array<byte>, i: nat) { i % 8 == 0 && i + 8 <= a.Length }

  /** `bytevector-u64-native-ref` and `foreign-ref 'unsigned-64`. */
  method LoadWord(a: array<byte>, i: nat, order: ByteOrder) returns (w: nat)
    requires WordAccess(a, i)
    ensures w == Word(a[i..i + 8], order) && w < Power256(8)
  {
    LittleFits(a[i..i + 8]);
    LittleFits(Reversed(a[i..i + 8]));
    w := 0;
    var k := 0;
    ghost var b := if order.LittleEndian? then a[i..i + 8] else Reversed(a[i..i + 8]);
    while k < 8
      invariant k <= 8 && w == LittleWord(b[8 - k..])
    {
      var j := if order.LittleEndian? then i + 7 - k else i + k;
      assert b[7 - k] == a[j] && b[7 - k..][1..] == b[8 - k..];
      w := a[j] as nat + 256 * w;
      k := k + 1;
    }
    assert b[0..] == b;
  }

  /** `bytevector-u64-native-set!` and `foreign-set! 'unsigned-64`. */
  method StoreWord(a: array<byte>, i: nat, w: nat, order: ByteOrder)
    requires WordAccess(a, i) && w < Power256(8)
    modifies a
    ensures forall j | 0 <= j < a.Length ::
              a[j] == if i <= j < i + 8 then WordBytes(w, 8, order)[j - i] else old(a[j])
  {
    var b := WordBytes(w, 8, order);
    var k := 0;
    while k < 8
      invariant k <= 8
      invariant forall j | 0 <= j < a.Length :: a[j] == if i <= j < i + k then b[j - i] else old(a[j])
    {
      a[i + k] := b[k];
      k := k + 1;
    }
  }

  // --- The copies --------------------------------------------------------------------------------------

  /** The first `n` bytes of `src` over the first `n` bytes of `dst`. */
  function Overlaid(dst: seq<byte>, src: seq<byte>, n: nat): (r: seq<byte>)
    requires n <= |dst| && n <= |src|
    ensures |r| == |dst|
  {
    src[..n] + dst[n..]
  }

  /** One word of the block loop. */
  method CopyWord(src: array<byte>, dst: array<byte>, i: nat, order: ByteOrder)
    requires src != dst && WordAccess(src, i) && WordAccess(dst, i)
    modifies dst
    ensures forall k | 0 <= k < dst.Length :: dst[k] == if i <= k < i + 8 then src[k] else old(dst[k])
  {
    var w := LoadWord(src, i, order);
    WordRoundTrip(src[i..i + 8], order);
    StoreWord(dst, i, w, order);
    assert forall k | i <= k < i + 8 :: src[i..i + 8][k - i] == src[k];
  }

  /** Both copies of the source are this loop, with reading and writing side exchanged. */
  method CopyBlocks(src: array<byte>, dst: array<byte>, len: nat, order: ByteOrder)
    requires src != dst && len <= src.Length && len <= dst.Length
    modifies dst
    ensures dst[..] == Overlaid(old(dst[..]), src[..], len)
  {
    var n8 := len - len % 8;
    var i := 0;
    while i < n8
      invariant i <= n8 && i % 8 == 0
      invariant forall k | 0 <= k < dst.Length :: dst[k] == if k < i then src[k] else old(dst[k])
    {
      CopyWord(src, dst, i, order);
      i := i + 8;
    }
    while i < len
      invariant n8 <= i <= len
      invariant forall k | 0 <= k < dst.Length :: dst[k] == if k < i then src[k] else old(dst[k])
    {
      dst[i] := src[i];
      i := i + 1;
    }
  }

  /** `copy-bytevector-to-foreign!`: exactly the bytes of the bytevector are written, nothing beyond. */
  method CopyToForeign(bv: array<byte>, mem: array<byte>, order: ByteOrder)
    requires bv != mem && bv.Length <= mem.Length
    modifies mem
    ensures mem[..] == bv[..] + old(mem[bv.Length..])
  {
    CopyBlocks(bv, mem, bv.Length, order);
  }

  /** `copy-foreign-to-bytevector!` */
  method CopyFromForeign(mem: array<byte>, bv: array<byte>, len: nat, order: ByteOrder)
    requires bv != mem && len <= mem.Length && len <= bv.Length
    modifies bv
    ensures bv[..] == mem[..len] + old(bv[len..])
  {
    CopyBlocks(mem, bv, len, order);
    assert mem[..][..len] == mem[..len];
  }

  /** A foreign pointer as Scheme sees it: #f, the address 0, or the address of some memory. */
  datatype Pointer = NoPointer | Null | To(mem: array<byte>)

  /** `bytevector->foreign`: an empty bytevector is the address 0. */
  method ToForeign(bv: array<byte>, order: ByteOrder) returns (ptr: Pointer, len: nat)
    ensures len == bv.Length && (if len == 0 then ptr == Null else ptr.To?)
    ensures ptr.To? ==> fresh(ptr.mem) && ptr.mem[..] == bv[..]
  {
    len := bv.Length;
    if len == 0 {
      ptr := Null;
    } else {
      var mem := new byte[len];
      CopyToForeign(bv, mem, order);
      ptr := To(mem);
    }
  }

  /** `foreign->bytevector`: only #f and lengths below 1 are caught, so the address 0 must not be read. */
  method FromForeign(ptr: Pointer, len: int, order: ByteOrder) returns (bv: array<byte>)
    requires ptr.Null? ==> len <= 0
    requires ptr.To? ==> len <= ptr.mem.Length
    ensures fresh(bv) && bv[..] == if ptr.To? && len > 0 then ptr.mem[..len] else []
  {
    if ptr.NoPointer? || len <= 0 {
      bv := new byte[0];
    } else {
      bv := new byte[len];
      CopyFromForeign(ptr.mem, bv, len, order);
    }
  }

  /** Out to foreign memory and back: the bytevector returns unchanged, empty or not, in either order. */
  method ThereAndBack(bv: array<byte>, order: ByteOrder) returns (back: array<byte>)
    ensures fresh(back) && back[..] == bv[..]
  {
    var ptr, len := ToForeign(bv, order);
    back := FromForeign(ptr, len, order);
  }
}
