/**
  Process arguments on their way from Scheme to C++: packed into one NUL-separated buffer on one side,
  split again by scanning for NULs on the other. Strings are given by their UTF-8 bytes.
 */
module Arguments {
  import opened Common
  import opened BlockCopy

  type Str = seq<byte>

  /** The strings one after the other, each ended by a NUL. */
  function Packed(strs: seq<Str>): seq<byte> {
    if strs == [] then [] else strs[0] + [0] + Packed(strs[1..])
  }

  /** What pack-strings returns: never empty. */
  function Buffer(strs: seq<Str>): seq<byte> { if strs == [] then [0] else Packed(strs) }

  /** Index of the first NUL at or after `off`, or the end of the buffer. */
  function StrEnd(b: seq<byte>, off: nat): (e: nat)
    requires off <= |b|
    ensures off <= e <= |b|
    decreases |b| - off
  {
    if off == |b| || b[off] == 0 then off else StrEnd(b, off + 1)
  }

  /** The C string at an offset. */
  function StrAt(b: seq<byte>, off: nat): Str
    requires off <= |b|
  {
    b[off..StrEnd(b, off)]
  }

  /** `count` scans beginning at `off` all stop inside the buffer. */
  predicate Scannable(b: seq<byte>, off: nat, count: nat)
    requires off <= |b|
    decreases count
  {
    count == 0 || (StrEnd(b, off) < |b| && Scannable(b, StrEnd(b, off) + 1, count - 1))
  }

  /** The strings those scans find. */
  function Unpacked(b: seq<byte>, off: nat, count: nat): (strs: seq<Str>)
    requires off <= |b| && Scannable(b, off, count)
    ensures |strs| == count
    decreases count
  {
    if count == 0 then [] else [StrAt(b, off)] + Unpacked(b, StrEnd(b, off) + 1, count - 1)
  }

  predicate NulFree(strs: seq<Str>) { forall i | 0 <= i < |strs| :: 0 !in strs[i] }

  // --- Packing -------------------------------------------------------------------------------------------

  lemma {:induction false} PackedSnoc(strs: seq<Str>, s: Str)
    ensures Packed(strs + [s]) == Packed(strs) + s + [0]
  {
    if strs == [] {
      assert strs + [s] == [s];
      assert Packed([s]) == s + [0] + Packed([s][1..]);
    } else {
      PackedSnoc(strs[1..], s);
      assert (strs + [s])[1..] == strs[1..] + [s];
    }
  }

  lemma PackedUpTo(strs: seq<Str>, i: nat)
    requires i < |strs|
    ensures Packed(strs[..i + 1]) == Packed(strs[..i]) + strs[i] + [0]
  {
    PackedSnoc(strs[..i], strs[i]);
    assert strs[..i + 1] == strs[..i] + [strs[i]];
  }

  lemma {:induction false} PackedGrows(strs: seq<Str>, i: nat)
    requires i <= |strs|
    ensures |Packed(strs[..i])| <= |Packed(strs)|
    decreases |strs| - i
  {
    if i < |strs| {
      PackedUpTo(strs, i);
      PackedGrows(strs, i + 1);
    } else {
      assert strs[..i] == strs;
    }
  }

  method TotalLength(strs: seq<Str>) returns (total: nat)
    ensures total == |Packed(strs)|
  {
    total := 0;
    for i := 0 to |strs|
      invariant total == |Packed(strs[..i])|
    {
      PackedUpTo(strs, i);
      total := total + |strs[i]| + 1;
    }
    assert strs[..|strs|] == strs;
  }

  /** `bytevector-copy!` */
  method CopyAt(src: seq<byte>, dst: array<byte>, off: nat)
    requires off + |src| <= dst.Length
    modifies dst
    ensures dst[..] == old(dst[..off]) + src + old(dst[off + |src|..])
  {
    for k := 0 to |src|
      invariant dst[..] == old(dst[..off]) + src[..k] + old(dst[off + k..])
    {
      dst[off + k] := src[k];
    }
    assert src[..|src|] == src;
  }

  /** One turn of the packing loop: a string and its NUL. */
  method PutString(s: Str, out: array<byte>, off: nat)
    requires off + |s| < out.Length
    modifies out
    ensures out[..off + |s| + 1] == old(out[..off]) + s + [0]
  {
    CopyAt(s, out, off);
    assert out[..off + |s|] == out[..][..off + |s|] == old(out[..off]) + s;
    out[off + |s|] := 0;
  }

  /** The buffer is filled exactly, one string after the other; nothing is written outside it. */
  method PackStrings(strs: seq<Str>) returns (out: array<byte>)
    ensures fresh(out) && out[..] == Buffer(strs)
  {
    var total := TotalLength(strs);
    out := new byte[if total > 1 then total else 1](_ => 0);
    assert strs != [] ==> total > 0;
    var off := 0;
    assert strs[..0] == [];
    for i := 0 to |strs|
      invariant fresh(out) && out.Length == total + (if total == 0 then 1 else 0)
      invariant off == |Packed(strs[..i])| <= total && out[..off] == Packed(strs[..i])
      invariant i == 0 ==> out[0] == 0
    {
      PackedUpTo(strs, i);
      PackedGrows(strs, i + 1);
      PutString(strs[i], out, off);
      off := off + |strs[i]| + 1;
    }
    assert strs[..|strs|] == strs && out[..out.Length] == out[..];
  }

  // --- Unpacking -----------------------------------------------------------------------------------------

  /** `strlen`, which reads only what lies before the first NUL. */
  method StrLen(b: array<byte>, off: nat) returns (n: nat)
    requires off <= b.Length && StrEnd(b[..], off) < b.Length
    ensures off + n == StrEnd(b[..], off)
  {
    n := 0;
    while b[off + n] != 0
      invariant off + n <= StrEnd(b[..], off) && StrEnd(b[..], off + n) == StrEnd(b[..], off)
      decreases b.Length - n
    {
      n := n + 1;
    }
  }

  /** The scans from `off` on find the strings from the i-th on. */
  ghost predicate Rest(b: seq<byte>, off: nat, i: nat, strs: seq<Str>) {
    off <= |b| && i <= |strs| && Scannable(b, off, |strs| - i) && Unpacked(b, off, |strs| - i) == strs[i..]
  }

  lemma {:induction false} ScanOn(b: seq<byte>, off: nat, i: nat, strs: seq<Str>)
    requires Rest(b, off, i, strs) && i < |strs|
    ensures StrEnd(b, off) < |b| && StrAt(b, off) == strs[i] && Rest(b, StrEnd(b, off) + 1, i + 1, strs)
  {
    assert strs[i..][0] == strs[i] && strs[i..][1..] == strs[i + 1..];
  }

  /** One scan: past the string at `off` and its NUL. */
  method Skip(b: array<byte>, off: nat, ghost i: nat, ghost strs: seq<Str>) returns (next: nat)
    requires Rest(b[..], off, i, strs) && i < |strs|
    ensures StrAt(b[..], off) == strs[i] && Rest(b[..], next, i + 1, strs)
  {
    ScanOn(b[..], off, i, strs);
    var n := StrLen(b, off);
    next := off + n + 1;
  }

  /** The offsets of `count` strings. No scan leaves the buffer if each is to find its NUL. */
  method UnpackStrings(b: array<byte>, count: nat) returns (out: seq<nat>)
    requires Scannable(b[..], 0, count)
    ensures |out| == count
    ensures forall i | 0 <= i < count ::
              out[i] <= b.Length && StrAt(b[..], out[i]) == Unpacked(b[..], 0, count)[i]
  {
    out := [];
    var off: nat := 0;
    ghost var strs := Unpacked(b[..], 0, count);
    for i := 0 to count
      invariant Rest(b[..], off, i, strs) && |out| == i
      invariant forall k | 0 <= k < i :: out[k] <= b.Length && StrAt(b[..], out[k]) == strs[k]
    {
      out := out + [off];
      off := Skip(b, off, i, strs);
    }
  }

  // --- Round trip ----------------------------------------------------------------------------------------

  lemma {:induction false} NoNulBefore(b: seq<byte>, off: nat)
    requires off <= |b|
    ensures 0 !in StrAt(b, off)
    decreases |b| - off
  {
    if off < |b| && b[off] != 0 {
      NoNulBefore(b, off + 1);
      assert StrAt(b, off) == [b[off]] + StrAt(b, off + 1);
    }
  }

  lemma {:induction false} FirstNul(b: seq<byte>, off: nat, e: nat)
    requires off <= e < |b| && b[e] == 0 && forall i | off <= i < e :: b[i] != 0
    ensures StrEnd(b, off) == e
    decreases e - off
  {
    if off < e {
      FirstNul(b, off + 1, e);
    }
  }

  /** `c` is some `d` bytes followed by `b`. */
  ghost predicate Ends(c: seq<byte>, d: nat, b: seq<byte>) {
    |c| == d + |b| && forall i | 0 <= i < |b| :: b[i] == c[d + i]
  }

  /** A scan is not affected by what lies before its offset. */
  lemma {:induction false} StrEndShift(c: seq<byte>, d: nat, b: seq<byte>, off: nat)
    requires Ends(c, d, b) && off <= |b|
    ensures StrEnd(c, d + off) == d + StrEnd(b, off)
    decreases |b| - off
  {
    if off < |b| && b[off] != 0 {
      StrEndShift(c, d, b, off + 1);
    }
  }

  lemma StrAtShift(c: seq<byte>, d: nat, b: seq<byte>, off: nat)
    requires Ends(c, d, b) && off <= |b|
    ensures StrAt(c, d + off) == StrAt(b, off)
  {
    StrEndShift(c, d, b, off);
  }

  lemma {:induction false} UnpackedShift(c: seq<byte>, d: nat, b: seq<byte>, off: nat, count: nat)
    requires Ends(c, d, b) && off <= |b| && Scannable(b, off, count)
    ensures Scannable(c, d + off, count) && Unpacked(c, d + off, count) == Unpacked(b, off, count)
    decreases count
  {
    if count > 0 {
      StrEndShift(c, d, b, off);
      StrAtShift(c, d, b, off);
      var next := StrEnd(b, off) + 1;
      UnpackedShift(c, d, b, next, count - 1);
      assert StrEnd(c, d + off) + 1 == d + next;
    }
  }

  /** The first string of a packed buffer, and what comes after it. */
  lemma {:induction false} PackedFirst(strs: seq<Str>)
    requires strs != [] && 0 !in strs[0]
    ensures var b, s := Packed(strs), strs[0];
            StrEnd(b, 0) == |s| < |b| && StrAt(b, 0) == s && Ends(b, |s| + 1, Packed(strs[1..]))
  {
    var b, s, tail := Packed(strs), strs[0], Packed(strs[1..]);
    assert b == (s + [0]) + tail;
    assert forall i | 0 <= i < |s| :: b[i] == s[i] && s[i] in s;
    FirstNul(b, 0, |s|);
  }

  lemma {:induction false} UnpackFirst(b: seq<byte>, off: nat, count: nat)
    requires off <= |b| && StrEnd(b, off) < |b| && Scannable(b, StrEnd(b, off) + 1, count)
    ensures Scannable(b, off, count + 1)
    ensures Unpacked(b, off, count + 1) == [StrAt(b, off)] + Unpacked(b, StrEnd(b, off) + 1, count)
  {
  }

  /** If the rest of a packed list comes back, so does the list. */
  lemma {:induction false} PackedOneMore(strs: seq<Str>)
    requires strs != [] && 0 !in strs[0]
    requires var tail := Packed(strs[1..]); Scannable(tail, 0, |strs| - 1) && Unpacked(tail, 0, |strs| - 1) == strs[1..]
    ensures Scannable(Packed(strs), 0, |strs|) && Unpacked(Packed(strs), 0, |strs|) == [strs[0]] + strs[1..]
  {
    var b, d := Packed(strs), |strs[0]| + 1;
    PackedFirst(strs);
    UnpackedShift(b, d, Packed(strs[1..]), 0, |strs| - 1);
    UnpackFirst(b, 0, |strs| - 1);
  }

  lemma {:induction false} PackedRoundTrip(strs: seq<Str>)
    requires NulFree(strs)
    ensures Scannable(Packed(strs), 0, |strs|) && Unpacked(Packed(strs), 0, |strs|) == strs
  {
    if strs != [] {
      PackedRoundTrip(strs[1..]);
      PackedOneMore(strs);
    }
  }

  lemma {:induction false} ScannedNulFree(b: seq<byte>, off: nat, count: nat)
    requires off <= |b| && Scannable(b, off, count)
    ensures NulFree(Unpacked(b, off, count))
    decreases count
  {
    if count > 0 {
      NoNulBefore(b, off);
      ScannedNulFree(b, StrEnd(b, off) + 1, count - 1);
    }
  }

  /** Number of NULs from an offset on. */
  function Nuls(b: seq<byte>, off: nat): nat
    requires off <= |b|
    decreases |b| - off
  {
    if off == |b| then 0 else (if b[off] == 0 then 1 else 0) + Nuls(b, off + 1)
  }

  lemma {:induction false} NulsAfterScan(b: seq<byte>, off: nat)
    requires off <= |b|
    ensures if StrEnd(b, off) < |b| then Nuls(b, off) == 1 + Nuls(b, StrEnd(b, off) + 1) else Nuls(b, off) == 0
    decreases |b| - off
  {
    if off < |b| && b[off] != 0 {
      NulsAfterScan(b, off + 1);
    }
  }

  /** The scans stay inside the buffer exactly when it holds as many NULs. */
  lemma {:induction false} ScannableIffNuls(b: seq<byte>, off: nat, count: nat)
    requires off <= |b|
    ensures Scannable(b, off, count) <==> count <= Nuls(b, off)
    decreases count
  {
    if count > 0 {
      NulsAfterScan(b, off);
      if StrEnd(b, off) < |b| {
        ScannableIffNuls(b, StrEnd(b, off) + 1, count - 1);
      }
    }
  }

  lemma {:induction false} NulsShift(a: seq<byte>, b: seq<byte>, off: nat)
    requires off <= |a|
    ensures Nuls(a + b, off) == Nuls(a, off) + Nuls(b, 0)
    decreases |a| - off
  {
    if off < |a| {
      NulsShift(a, b, off + 1);
    } else {
      NulsSame(a, b, 0);
    }
  }

  lemma {:induction false} NulsSame(a: seq<byte>, b: seq<byte>, off: nat)
    requires off <= |b|
    ensures Nuls(a + b, |a| + off) == Nuls(b, off)
    decreases |b| - off
  {
    if off < |b| {
      NulsSame(a, b, off + 1);
    }
  }

  lemma {:induction false} PackedNuls(strs: seq<Str>)
    ensures |strs| <= Nuls(Packed(strs), 0)
  {
    if strs != [] {
      PackedNuls(strs[1..]);
      NulsShift(strs[0] + [0], Packed(strs[1..]), 0);
      NulsShift(strs[0], [0], 0);
      assert Nuls([0], 0) == 1 + Nuls([0], 1);
    }
  }

  /** Whatever the strings are, unpacking as many as were packed never reads outside the buffer. */
  lemma {:induction false} BufferScannable(strs: seq<Str>)
    ensures Scannable(Buffer(strs), 0, |strs|)
  {
    if strs != [] {
      PackedNuls(strs);
      ScannableIffNuls(Packed(strs), 0, |strs|);
    }
  }

  /** Unpacking gives the packed list back exactly when no string contains a NUL. */
  lemma {:induction false} RoundTripIff(strs: seq<Str>)
    ensures Scannable(Buffer(strs), 0, |strs|)
    ensures Unpacked(Buffer(strs), 0, |strs|) == strs <==> NulFree(strs)
  {
    BufferScannable(strs);
    if NulFree(strs) && strs != [] {
      PackedRoundTrip(strs);
    }
    ScannedNulFree(Buffer(strs), 0, |strs|);
  }

  /** The way of the arguments of io-spawn: packed, copied to foreign memory in blocks, split by the loop thread. */
  method PassArguments(strs: seq<Str>, order: ByteOrder) returns (mem: array<byte>, argv: seq<nat>)
    ensures |argv| == |strs| && forall i | 0 <= i < |argv| :: argv[i] <= mem.Length
    ensures (forall i | 0 <= i < |argv| :: StrAt(mem[..], argv[i]) == strs[i]) <==> NulFree(strs)
  {
    var buf := PackStrings(strs);
    var ptr, len := ToForeign(buf, order);
    mem := ptr.mem;
    RoundTripIff(strs);
    argv := UnpackStrings(mem, |strs|);
    ghost var found := Unpacked(mem[..], 0, |strs|);
    assert found == strs <==> forall i | 0 <= i < |strs| :: found[i] == strs[i];
  }
}
