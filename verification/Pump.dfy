/**
  Loops over stream reads and writes: the pump from one stream to another through one reused buffer,
  and reading a stream to its end. What a single read or write does is the environment's choice.
 */
module Pump {
  import opened Common
  import opened Arguments

  datatype Outcome<T> = Ok(value: T) | Raised(errno: int)

  /**
    A stream as Scheme sees it: the bytes that are still to come before EOF, and the bytes that have
    been written. A read may bring any positive number of bytes, or fail; a write may fail after any part
    of its bytes has gone out.
   */
  class Endpoint {
    var pending: seq<byte>
    var written: seq<byte>
    ghost var failures: seq<int>   // the results of the tasks on this stream that failed

    constructor (bytes: seq<byte>)
      ensures pending == bytes && written == [] && failures == []
    {
      pending, written, failures := bytes, [], [];
    }

    /** The read task: the number of bytes put into the buffer, 0 at EOF, negative on failure. */
    method ReadTask(bv: array<byte>, start: nat, n: nat) returns (r: int)
      requires start + n <= bv.Length && n > 0
      modifies this`pending, this`failures, bv
      ensures r <= n && r <= |old(pending)| && (r == 0 ==> old(pending) == [])
      ensures r <= 0 ==> pending == old(pending) && bv[..] == old(bv[..])
      ensures r > 0 ==>
                && pending == old(pending)[r..]
                && bv[..] == old(bv[..start]) + old(pending)[..r] + old(bv[start + r..])
      ensures failures == if r < 0 then old(failures) + [r] else old(failures)
    {
      if * {
        r :| r < 0;
        failures := failures + [r];
      } else if pending == [] {
        r := 0;
      } else {
        var k: nat :| 0 < k <= n && k <= |pending|;
        CopyAt(pending[..k], bv, start);
        pending := pending[k..];
        r := k;
      }
    }

    /** The write task: all `n` bytes, or failure with the first `sent` of them gone out. */
    method WriteTask(bv: array<byte>, start: nat, n: nat) returns (r: int, ghost sent: nat)
      requires start + n <= bv.Length
      modifies this`written, this`failures
      ensures r == n == sent || (r < 0 && sent <= n)
      ensures written == old(written) + bv[start..start + sent]
      ensures failures == if r < 0 then old(failures) + [r] else old(failures)
    {
      if * {
        r :| r < 0;
        failures := failures + [r];
        var k: nat :| k <= n;
        sent := k;
        written := written + bv[start..start + k];
      } else {
        written := written + bv[start..start + n];
        r, sent := n, n;
      }
    }

    /** `io-stream-read!`: None is EOF. It raises what the read task failed with, and only then. */
    method ReadInto(bv: array<byte>, start: nat, n: nat) returns (r: Outcome<Option<nat>>)
      requires start + n <= bv.Length && n > 0
      modifies this`pending, this`failures, bv
      ensures failures == Failures(old(failures), r)
      ensures match r
              case Raised(_) => pending == old(pending)
              case Ok(None) => old(pending) == [] && pending == []
              case Ok(Some(k)) =>
                && 0 < k <= n && k <= |old(pending)|
                && pending == old(pending)[k..] && bv[start..start + k] == old(pending)[..k]
    {
      var k := ReadTask(bv, start, n);
      if k < 0 {
        return Raised(k);
      } else if k == 0 {
        return Ok(None);
      }
      assert bv[start..start + k] == bv[..][start..start + k] == old(pending)[..k];
      r := Ok(Some(k));
    }

    /** `io-stream-write!`: it raises what the write task failed with, and only then. */
    method Write(bv: array<byte>, start: nat, n: nat) returns (r: Outcome<nat>, ghost sent: nat)
      requires start + n <= bv.Length
      modifies this`written, this`failures
      ensures failures == Failures(old(failures), r)
      ensures sent <= n && written == old(written) + bv[start..start + sent]
      ensures r.Ok? ==> r.value == n == sent
    {
      var k;
      k, sent := WriteTask(bv, start, n);
      r := if k < 0 then Raised(k) else Ok(k);
    }

    /** `io-stream-read`: a bytevector of its own for every chunk. */
    method ReadChunk(maxlen: nat) returns (r: Outcome<Option<seq<byte>>>)
      requires maxlen > 0
      modifies this`pending, this`failures
      ensures failures == Failures(old(failures), r)
      ensures match r
              case Raised(_) => pending == old(pending)
              case Ok(None) => old(pending) == [] && pending == []
              case Ok(Some(chunk)) => chunk != [] && |chunk| <= maxlen && old(pending) == chunk + pending
    {
      var bv := new byte[maxlen];
      var n := ReadInto(bv, 0, maxlen);
      match n {
        case Raised(e) => r := Raised(e);
        case Ok(None) => r := Ok(None);
        case Ok(Some(k)) => r := Ok(Some(bv[0..k]));
      }
    }
  }

  /** The failures after an operation: what it raised, if it raised, is the result of a task that failed. */
  function Failures<T>(before: seq<int>, r: Outcome<T>): seq<int> {
    match r
    case Ok(_) => before
    case Raised(e) => before + [e]
  }

  /**
    Of the bytes that were to come, the first `sent` were written and the first `taken` were read; the
    rest is still to come.
   */
  ghost predicate Moved(all: seq<byte>, pending: seq<byte>, was: seq<byte>, written: seq<byte>, sent: nat, taken: nat) {
    sent <= taken <= |all| && pending == all[taken..] && written == was + all[..sent]
  }

  /** Taking a chunk and writing a part of it. */
  lemma MovedOn(
    all: seq<byte>, pending: seq<byte>, was: seq<byte>, written: seq<byte>, total: nat, got: seq<byte>, part: nat,
    sent: nat, taken: nat
  )
    requires Moved(all, got + pending, was, written, total, total)
    requires part <= |got| && sent == total + part && taken == total + |got|
    ensures Moved(all, pending, was, written + got[..part], sent, taken)
  {
    assert all[total..][|got|..] == all[taken..];
    assert all[..total] + got[..part] == all[..sent];
  }

  /**
    `io-stream-pipe`. It returns normally only at EOF, with every byte written in order and counted, and
    it raises only what a read or a write of this call has failed with: without a failure it returns. If a
    read or a write fails, what was written is a prefix of what came, and at most the one chunk whose
    write failed has been taken and not written in full. Source and destination may be the same stream.
   */
  method Pipe(src: Endpoint, dst: Endpoint, chunk: nat) returns (r: Outcome<nat>, ghost sent: nat, ghost taken: nat)
    requires chunk > 0
    modifies src`pending, src`failures, dst`written, dst`failures
    ensures r.Ok? ==> src.failures == old(src.failures) && dst.failures == old(dst.failures)
    ensures r.Raised? ==>
              || (src.failures == old(src.failures) + [r.errno] && (dst != src ==> dst.failures == old(dst.failures)))
              || (dst.failures == old(dst.failures) + [r.errno] && (dst != src ==> src.failures == old(src.failures)))
    ensures Moved(old(src.pending), src.pending, old(dst.written), dst.written, sent, taken) && taken - sent <= chunk
    ensures r.Ok? ==> r.value == sent == taken == |old(src.pending)|
    ensures r.Ok? ==> src.pending == [] && dst.written == old(dst.written) + old(src.pending)
  {
    ghost var all, was := src.pending, dst.written;
    var buf := new byte[chunk];
    var total := 0;
    sent, taken := 0, 0;
    while true
      invariant fresh(buf) && buf.Length == chunk
      invariant src.failures == old(src.failures) && dst.failures == old(dst.failures)
      invariant sent == taken == total && Moved(all, src.pending, was, dst.written, sent, taken)
      decreases |src.pending|
    {
      var n := src.ReadInto(buf, 0, chunk);
      if n.Raised? {
        return Raised(n.errno), sent, taken;
      }
      if n.value.None? {
        assert all[..total] == all;
        return Ok(total), sent, taken;
      }
      var k := n.value.value;
      ghost var got, written := buf[0..k], dst.written;
      assert all[total..] == got + src.pending;
      taken := total + k;
      var w;
      ghost var part;
      w, part := dst.Write(buf, 0, k);
      sent := total + part;
      assert buf[0..part] == got[..part];
      MovedOn(all, src.pending, was, written, total, got, part, sent, taken);
      if w.Raised? {
        return Raised(w.errno), sent, taken;
      }
      total := total + k;
    }
  }

  // --- Reading to the end ------------------------------------------------------------------------------

  /** The chunks one after the other, for a list that holds the last one first. */
  function Joined(chunks: seq<seq<byte>>): seq<byte> {
    if chunks == [] then [] else Joined(chunks[1..]) + chunks[0]
  }

  lemma {:induction false} JoinedPrefix(chunks: seq<seq<byte>>, i: nat)
    requires i <= |chunks|
    ensures |Joined(chunks[i..])| <= |Joined(chunks)|
    decreases i
  {
    if i == 0 {
      assert chunks[0..] == chunks;
    } else {
      JoinedPrefix(chunks, i - 1);
      assert chunks[i - 1..][1..] == chunks[i..];
    }
  }

  /** The copying loop: from the end of the list, each chunk at the offset where the last one stopped. */
  method Join(chunks: seq<seq<byte>>, total: nat) returns (out: array<byte>)
    requires total == |Joined(chunks)|
    ensures fresh(out) && out[..] == Joined(chunks)
  {
    out := new byte[total];
    var i, off := |chunks|, 0;
    while i > 0
      invariant 0 <= i <= |chunks| && fresh(out) && out.Length == total
      invariant off == |Joined(chunks[i..])| <= total && out[..off] == Joined(chunks[i..])
    {
      i := i - 1;
      assert chunks[i..][1..] == chunks[i + 1..] && chunks[i..][0] == chunks[i];
      JoinedPrefix(chunks, i);
      CopyAt(chunks[i], out, off);
      off := off + |chunks[i]|;
      assert out[..off] == out[..][..off];
    }
    assert chunks[0..] == chunks && out[..off] == out[..];
  }

  /**
    `read-stream-to-eof` returns every byte that came before EOF, in order, however it was cut up. It
    raises only what a read has failed with.
   */
  method ReadToEof(src: Endpoint) returns (r: Outcome<array<byte>>)
    modifies src`pending, src`failures
    ensures src.failures == Failures(old(src.failures), r)
    ensures r.Ok? ==> fresh(r.value) && r.value[..] == old(src.pending) && src.pending == []
  {
    var chunks, total := [], 0;
    while true
      invariant src.failures == old(src.failures)
      invariant total == |Joined(chunks)| && Joined(chunks) + src.pending == old(src.pending)
      decreases |src.pending|
    {
      var chunk := src.ReadChunk(65536);
      if chunk.Raised? {
        return Raised(chunk.errno);
      }
      if chunk.value.None? {
        var out := Join(chunks, total);
        return Ok(out);
      }
      assert ([chunk.value.value] + chunks)[1..] == chunks;
      chunks, total := [chunk.value.value] + chunks, total + |chunk.value.value|;
    }
  }
}
