/** NUL-terminated frames over a byte stream that arrives in arbitrary pieces. */
module Framing {

  type byte = b: int | 0 <= b < 256

  const MAX_PACKET: nat := 65536
  const PEEK_SIZE: nat := 4096

  datatype Option<T> = None | Some(value: T)

  /** A connection: the bytes still to be delivered, in order, and whether a write has failed or timed
      out. The stream then closes. */
  class Socket {
    var pending: seq<byte>
    var failed: bool

    constructor (bytes: seq<byte>)
      ensures pending == bytes && !failed
    {
      pending := bytes;
      failed := false;
    }

    /** Shows some of the next bytes, as many as happen to have arrived; none when closed. */
    method Peek(size: nat) returns (got: seq<byte>)
      requires size > 0
      ensures got <= pending && |got| <= size
      ensures got == [] <==> pending == []
    {
      var k: nat :| k <= |pending| && k <= size && (k == 0 <==> pending == []) by {
        assert pending != [] ==> 1 <= |pending|;
      }
      got := pending[..k];
    }

    method Read(size: nat) returns (got: seq<byte>)
      requires size <= |pending|
      modifies `pending
      ensures got == old(pending)[..size] && pending == old(pending)[size..]
    {
      got := pending[..size];
      pending := pending[size..];
    }

    /** Takes some of the bytes offered, at least one, or fails and takes none. */
    method Write(bytes: seq<byte>) returns (n: int)
      requires bytes != []
      modifies this
      ensures -1 <= n <= |bytes| && n != 0
      ensures pending == old(pending) + if n < 0 then [] else bytes[..n]
      ensures failed == (old(failed) || n < 0)
    {
      n :| -1 <= n <= |bytes| && n != 0;
      if n < 0 { failed := true; } else { pending := pending + bytes[..n]; }
    }
  }

  // ----- Frames -----

  function FirstNul(s: seq<byte>): (z: nat)
    ensures z <= |s| && (z < |s| ==> s[z] == 0)
    ensures forall k :: 0 <= k < z ==> s[k] != 0
  {
    if s == [] || s[0] == 0 then 0 else 1 + FirstNul(s[1..])
  }

  lemma {:induction false} FirstNulIs(s: seq<byte>, z: nat)
    requires z < |s| && s[z] == 0 && forall k :: 0 <= k < z ==> s[k] != 0
    ensures FirstNul(s) == z
  {
  }

  /** The stream starts with a frame that fits the receive buffer. */
  predicate FrameReady(s: seq<byte>) {
    FirstNul(s) < |s| && FirstNul(s) <= MAX_PACKET - 2
  }

  /** What `send_json` accepts: text without a NUL, within its limit. */
  predicate Sendable(frame: seq<byte>) {
    |frame| < MAX_PACKET - 1 && forall k :: 0 <= k < |frame| ==> frame[k] != 0
  }

  function Encode(frames: seq<seq<byte>>): seq<byte> {
    if frames == [] then [] else frames[0] + [0] + Encode(frames[1..])
  }

  /** A frame is found at the head of the stream. */
  lemma {:induction false} HeadFrame(frame: seq<byte>, rest: seq<byte>)
    requires forall k :: 0 <= k < |frame| ==> frame[k] != 0
    ensures var s := frame + [0] + rest; FirstNul(s) == |frame| && s[..|frame|] == frame && s[|frame| + 1..] == rest
  {
    FirstNulIs(frame + [0] + rest, |frame|);
  }

  lemma {:induction false} NextFrame(frames: seq<seq<byte>>, part: seq<byte>)
    requires frames != [] && Sendable(frames[0])
    ensures var s, z := Encode(frames) + part, |frames[0]|;
            FirstNul(s) == z < |s| && s[..z] == frames[0] && s[z + 1..] == Encode(frames[1..]) + part && FrameReady(s)
  {
    HeadFrame(frames[0], Encode(frames[1..]) + part);
    assert Encode(frames) + part == frames[0] + [0] + (Encode(frames[1..]) + part);
  }

  lemma {:induction false} EncodedHead(frames: seq<seq<byte>>)
    requires frames != [] && Sendable(frames[0])
    ensures var s, z := Encode(frames), |frames[0]|;
            FirstNul(s) == z < |s| && s[..z] == frames[0] && s[z + 1..] == Encode(frames[1..])
  {
    HeadFrame(frames[0], Encode(frames[1..]));
  }

  lemma {:induction false} EncodeConcat(a: seq<seq<byte>>, b: seq<seq<byte>>)
    ensures Encode(a + b) == Encode(a) + Encode(b)
  {
    if a == [] {
      assert a + b == b;
    } else {
      assert (a + b)[1..] == a[1..] + b;
      EncodeConcat(a[1..], b);
    }
  }

  /** The bytes determine the messages. */
  lemma {:induction false} EncodeInjective(a: seq<seq<byte>>, b: seq<seq<byte>>)
    requires forall k :: 0 <= k < |a| ==> Sendable(a[k])
    requires forall k :: 0 <= k < |b| ==> Sendable(b[k])
    requires Encode(a) == Encode(b)
    ensures a == b
  {
    if a == [] {
      if b != [] { EncodedHead(b); }
    } else {
      EncodedHead(a);
      EncodedHead(b);
      EncodeInjective(a[1..], b[1..]);
      assert a == [a[0]] + a[1..] && b == [b[0]] + b[1..];
    }
  }

  // ----- Sending and receiving -----

  /** Writes a frame and its NUL, in as many pieces as it takes; refuses what is too long. When a write
      fails, the start of the frame stays written. */
  method SendFrame(fd: Socket, frame: seq<byte>) returns (sent: bool)
    modifies fd
    ensures old(fd.pending) <= fd.pending
    ensures var written := fd.pending[|old(fd.pending)|..]; if sent then written == frame + [0] else written <= frame
    ensures |frame| >= 65535 ==> !sent && fd.pending == old(fd.pending) && fd.failed == old(fd.failed)
    ensures |frame| < 65535 && !old(fd.failed) ==> sent == !fd.failed
  {
    if |frame| >= MAX_PACKET - 1 { return false; }
    var written := 0;
    while written < |frame|
      invariant written <= |frame| && fd.pending == old(fd.pending) + frame[..written] && fd.failed == old(fd.failed)
    {
      var n := fd.Write(frame[written..]);
      if n < 0 { return false; }
      assert frame[..written + n] == frame[..written] + frame[written..][..n];
      written := written + n;
    }
    var n := fd.Write([0]);
    sent := n >= 0;
  }

  /** Stores received bytes in the buffer from `n` on. */
  method Store(buf: array<byte>, n: nat, bytes: seq<byte>)
    requires n + |bytes| <= buf.Length
    modifies buf
    ensures buf[..n + |bytes|] == old(buf[..n]) + bytes
  {
    var i := 0;
    while i < |bytes|
      invariant i <= |bytes| && buf[..n + i] == old(buf[..n]) + bytes[..i]
    {
      buf[n + i] := bytes[i];
      i := i + 1;
    }
  }

  /** Moves `k` bytes from the connection to the end of the buffered text. */
  method ReadInto(fd: Socket, buf: array<byte>, n: nat, k: nat, ghost start: seq<byte>)
    requires n + k <= |start| && n + k <= buf.Length && buf[..n] == start[..n] && fd.pending == start[n..]
    modifies fd`pending, buf
    ensures buf[..n + k] == start[..n + k] && fd.pending == start[n + k..]
  {
    var bytes := fd.Read(k);
    Store(buf, n, bytes);
    assert start[..n + k] == start[..n] + start[n..][..k];
    assert start[n + k..] == start[n..][k..];
  }

  /** The text in a buffer, up to its first NUL. */
  function CString(s: seq<byte>): seq<byte> {
    s[..FirstNul(s)]
  }

  /** Reads the next frame. For a frame within the limit the result is that frame and nothing
      after its NUL is consumed, however the bytes arrive. Otherwise there is no result, or the
      buffer filled up exactly and holds the start of a frame that is too long. */
  method RecvFrame(fd: Socket) returns (r: Option<seq<byte>>)
    modifies fd`pending
    ensures FrameReady(old(fd.pending)) ==>
      var z := FirstNul(old(fd.pending));
      r == Some(old(fd.pending)[..z]) && fd.pending == old(fd.pending)[z + 1..]
    ensures !FrameReady(old(fd.pending)) && r.Some? ==>
      |old(fd.pending)| >= 65535 && r.value == old(fd.pending)[..65535]
  {
    ghost var start := fd.pending;
    var buf := new byte[MAX_PACKET];
    var n: nat := 0;
    while n < MAX_PACKET - 1
      invariant n < MAX_PACKET && n <= FirstNul(start)
      invariant buf[..n] == start[..n] && fd.pending == start[n..]
      decreases |fd.pending|
    {
      var peeked := fd.Peek(PEEK_SIZE);
      if peeked == [] { return None; }
      var found := FindNul(peeked);
      PeekedNul(start, n, peeked, found);
      if found < |peeked| {
        if n + found + 1 >= MAX_PACKET { return None; }
        ReadInto(fd, buf, n, found + 1, start);
        n := n + found + 1;
        buf[n] := 0;
        FrameInBuffer(start, buf[..n + 1], n);
        return Some(CString(buf[..n + 1]));
      }
      if n + |peeked| >= MAX_PACKET { return None; }
      ReadInto(fd, buf, n, |peeked|, start);
      n := n + |peeked|;
    }
    buf[n] := 0;
    FirstNulIs(buf[..n + 1], n);
    r := Some(CString(buf[..n + 1]));
  }

  method FindNul(peeked: seq<byte>) returns (found: nat)
    ensures found == FirstNul(peeked)
  {
    found := 0;
    while found < |peeked|
      invariant found <= |peeked| && forall k :: 0 <= k < found ==> peeked[k] != 0
    {
      if peeked[found] == 0 {
        FirstNulIs(peeked, found);
        return;
      }
      found := found + 1;
    }
  }

  lemma PeekedNul(start: seq<byte>, n: nat, peeked: seq<byte>, found: nat)
    requires n <= FirstNul(start) && peeked <= start[n..]
    requires found == FirstNul(peeked)
    ensures if found < |peeked| then FirstNul(start) == n + found else n + |peeked| <= FirstNul(start)
    ensures n + |peeked| <= |start|
  {
  }

  lemma FrameInBuffer(start: seq<byte>, buf: seq<byte>, n: nat)
    requires 0 < n <= |start| && FirstNul(start) == n - 1
    requires |buf| == n + 1 && buf[..n] == start[..n]
    ensures CString(buf) == start[..n - 1]
  {
    assert forall k :: 0 <= k < n ==> buf[k] == buf[..n][k] == start[k];
    FirstNulIs(buf, n - 1);
  }

  /** Bytes without a NUL, fewer than the receive buffer holds. */
  predicate Unfinished(s: seq<byte>) {
    |s| < MAX_PACKET - 1 && FirstNul(s) == |s|
  }

  lemma PartUnfinished(frame: seq<byte>, part: seq<byte>)
    requires Sendable(frame) && part <= frame
    ensures Unfinished(part)
  {
  }

  /** Sends messages until one fails. */
  method SendAll(fd: Socket, frames: seq<seq<byte>>) returns (sent: nat, ghost part: seq<byte>)
    requires fd.pending == [] && !fd.failed && forall k :: 0 <= k < |frames| ==> Sendable(frames[k])
    modifies fd
    ensures sent <= |frames| && (fd.failed <==> sent < |frames|)
    ensures fd.pending == Encode(frames[..sent]) + part && Unfinished(part)
  {
    sent, part := 0, [];
    while sent < |frames|
      invariant sent <= |frames| && fd.pending == Encode(frames[..sent]) && !fd.failed && part == []
    {
      var ok := SendFrame(fd, frames[sent]);
      if !ok {
        part := fd.pending[|Encode(frames[..sent])|..];
        PartUnfinished(frames[sent], part);
        return;
      }
      assert frames[..sent + 1] == frames[..sent] + [frames[sent]];
      EncodeConcat(frames[..sent], [frames[sent]]);
      assert Encode([frames[sent]]) == frames[sent] + [0];
      sent := sent + 1;
    }
  }

  /** Receives messages until there are no more. */
  method ReceiveAll(fd: Socket, ghost frames: seq<seq<byte>>, ghost part: seq<byte>) returns (received: seq<seq<byte>>)
    requires fd.pending == Encode(frames) + part && Unfinished(part)
    requires forall k :: 0 <= k < |frames| ==> Sendable(frames[k])
    modifies fd
    ensures received == frames && fd.failed == old(fd.failed)
  {
    received := [];
    ghost var left := frames;
    while true
      invariant frames == received + left && fd.pending == Encode(left) + part && fd.failed == old(fd.failed)
      invariant forall k :: 0 <= k < |left| ==> Sendable(left[k])
      decreases |left|
    {
      if left == [] { assert fd.pending == part; } else { NextFrame(left, part); }
      var r := RecvFrame(fd);
      if r.None? { break; }
      received, left := received + [r.value], left[1..];
    }
  }

  /** Of messages that the sender accepts, those sent before a write fails are received as sent and in
      order, and nothing of the one cut off is. */
  method Exchange(fd: Socket, frames: seq<seq<byte>>) returns (received: seq<seq<byte>>, sent: nat)
    requires fd.pending == [] && !fd.failed && forall k :: 0 <= k < |frames| ==> Sendable(frames[k])
    modifies fd
    ensures sent <= |frames| && received == frames[..sent] && (fd.failed <==> sent < |frames|)
  {
    ghost var part;
    sent, part := SendAll(fd, frames);
    received := ReceiveAll(fd, frames[..sent], part);
  }

  /** A sender that goes on after a failed write has its next message received as sent exactly when
      nothing of the failed one was written. */
  lemma CutFrameJoins(frame: seq<byte>, part: seq<byte>, next: seq<byte>, rest: seq<byte>)
    requires Sendable(frame) && part <= frame && Sendable(next)
    ensures var s := part + next + [0] + rest;
            FirstNul(s) == |part| + |next| && (s[..FirstNul(s)] == next <==> part == [])
  {
    HeadFrame(part + next, rest);
    assert part == [] ==> part + next == next;
  }
}
