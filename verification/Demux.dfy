/** The container log stream of the Docker Engine API ("Stream format" of container attach): frames of
    an 8-byte header and a payload, or a raw stream when the container has a terminal. */
module Demux {

  newtype byte = x: int | 0 <= x < 256

  const HEADER := 8
  const MAX_PAYLOAD := 0x1_0000_0000

  // ---- The reader ----

  predicate HeaderFits(h: seq<byte>)
    requires |h| >= HEADER
  {
    h[0] <= 2 && h[1..4] == [0, 0, 0]
  }

  /** The payload length, most significant byte first. */
  function Size(h: seq<byte>): nat
    requires |h| >= HEADER
  {
    ((h[4] as int * 256 + h[5] as int) * 256 + h[6] as int) * 256 + h[7] as int
  }

  function Least(a: nat, b: nat): nat { if a <= b then a else b }

  /** Where the frame that starts these bytes ends, for a payload that may have been cut off. */
  function FrameEnd(raw: seq<byte>): (n: nat)
    requires |raw| >= HEADER
    ensures HEADER <= n <= |raw|
  {
    Least(|raw|, HEADER + Size(raw))
  }

  /** Every header the reader meets is one. */
  predicate Multiplexed(raw: seq<byte>) {
    |raw| < HEADER || (HeaderFits(raw) && Multiplexed(raw[FrameEnd(raw)..]))
  }

  /** The payloads, joined; fewer than 8 bytes at the end are dropped. */
  function Text(raw: seq<byte>): seq<byte> {
    if |raw| < HEADER then []
    else raw[HEADER..FrameEnd(raw)] + Text(raw[FrameEnd(raw)..])
  }

  function Join(parts: seq<seq<byte>>): seq<byte> {
    if parts == [] then [] else Join(parts[..|parts| - 1]) + parts[|parts| - 1]
  }

  lemma JoinAppend(parts: seq<seq<byte>>, part: seq<byte>)
    ensures Join(parts + [part]) == Join(parts) + part
  {
    assert (parts + [part])[..|parts|] == parts;
  }

  lemma NoFrame(rest: seq<byte>)
    requires |rest| < HEADER
    ensures Multiplexed(rest) && Text(rest) == [] && Join([]) == []
  {}

  lemma Slices(raw: seq<byte>, i: nat, a: nat, b: nat)
    requires i <= |raw| && a <= b <= |raw| - i
    ensures raw[i..][a..b] == raw[i + a..i + b] && raw[i..][b..] == raw[i + b..]
  {}

  lemma FirstFrame(raw: seq<byte>)
    requires |raw| >= HEADER
    ensures Multiplexed(raw) <==> HeaderFits(raw) && Multiplexed(raw[FrameEnd(raw)..])
    ensures Text(raw) == raw[HEADER..FrameEnd(raw)] + Text(raw[FrameEnd(raw)..])
  {}

  method DemuxDockerLogs(raw: seq<byte>) returns (text: seq<byte>)
    ensures text == if Multiplexed(raw) then Text(raw) else raw
  {
    hide Multiplexed, Text, Join, Size;
    var out: seq<seq<byte>> := [];
    var i := 0;
    NoFrame(raw[..0]);
    assert raw[0..] == raw;
    while i + HEADER <= |raw|
      invariant 0 <= i
      invariant Text(raw) == Join(out) + Text(raw[Least(|raw|, i)..])
      invariant Multiplexed(raw) <==> Multiplexed(raw[Least(|raw|, i)..])
    {
      ghost var rest := raw[i..];
      FirstFrame(rest);
      Slices(raw, i, 1, 4);
      Slices(raw, i, HEADER, FrameEnd(rest));
      if raw[i] > 2 || raw[i + 1..i + 4] != [0, 0, 0] {
        return raw;
      }
      var size := Size(raw[i..]);
      var payload := raw[i + HEADER..Least(|raw|, i + HEADER + size)];
      JoinAppend(out, payload);
      out := out + [payload];
      i := i + HEADER + size;
    }
    NoFrame(raw[Least(|raw|, i)..]);
    return Join(out);
  }

  // ---- The writer ----

  datatype Frame = Frame(stream: byte, payload: seq<byte>)

  ghost predicate Sendable(frames: seq<Frame>) {
    forall f :: f in frames ==> f.stream <= 2 && |f.payload| < MAX_PAYLOAD
  }

  function Header(f: Frame): (h: seq<byte>)
    requires |f.payload| < MAX_PAYLOAD
    ensures |h| == HEADER
  {
    var n := |f.payload|;
    [f.stream, 0, 0, 0,
     (n / 256 / 256 / 256) as byte, (n / 256 / 256 % 256) as byte, (n / 256 % 256) as byte, (n % 256) as byte]
  }

  function Encode(frames: seq<Frame>): seq<byte>
    requires Sendable(frames)
  {
    if frames == [] then [] else Header(frames[0]) + frames[0].payload + Encode(frames[1..])
  }

  function Payloads(frames: seq<Frame>): seq<byte> {
    if frames == [] then [] else frames[0].payload + Payloads(frames[1..])
  }

  /** The bytes start as those frames would, and at most 7 bytes follow them. */
  ghost predicate StreamOf(raw: seq<byte>, frames: seq<Frame>, tail: seq<byte>) {
    Sendable(frames) && |tail| < HEADER && raw <= Encode(frames) + tail
  }

  lemma Digit(q: nat, d: byte)
    ensures (q * 256 + d as int) / 256 == q && (q * 256 + d as int) % 256 == d as int
  {}

  lemma HeaderReads(f: Frame, rest: seq<byte>)
    requires f.stream <= 2 && |f.payload| < MAX_PAYLOAD
    ensures HeaderFits(Header(f) + rest) && Size(Header(f) + rest) == |f.payload|
  {
    var h := Header(f) + rest;
    assert h[1..4] == [0, 0, 0];
    assert forall n: nat :: n / 256 * 256 + n % 256 == n;
  }

  // ---- Reading what was written ----

  lemma FirstFrameReads(raw: seq<byte>, f: Frame, more: seq<byte>)
    requires f.stream <= 2 && |f.payload| < MAX_PAYLOAD
    requires HEADER <= |raw| && raw <= Header(f) + f.payload + more
    ensures HeaderFits(raw) && FrameEnd(raw) == Least(|raw|, HEADER + |f.payload|)
    ensures raw[HEADER..FrameEnd(raw)] == f.payload[..FrameEnd(raw) - HEADER]
    ensures raw[FrameEnd(raw)..] <= more
  {
    var all := Header(f) + f.payload + more;
    assert raw == all[..|raw|] && all[..HEADER] == Header(f);
    assert raw == Header(f) + raw[HEADER..];
    HeaderReads(f, raw[HEADER..]);
    var n := FrameEnd(raw);
    assert raw[HEADER..n] == all[HEADER..n];
    if n < |raw| { assert raw[n..] == more[..|raw| - n]; }
  }

  lemma PrefixBehind(a: seq<byte>, b: seq<byte>, c: seq<byte>)
    requires b <= c
    ensures a + b <= a + c
  {
    assert (a + c)[..|a + b|] == a + b;
  }

  /** Any cut of an encoded stream reads as a prefix of the payloads, and as all of them once the frames
      are complete. */
  lemma {:induction false} CutStreamReads(raw: seq<byte>, frames: seq<Frame>, tail: seq<byte>)
    requires StreamOf(raw, frames, tail)
    ensures Multiplexed(raw) && Text(raw) <= Payloads(frames)
    ensures |Encode(frames)| <= |raw| ==> Text(raw) == Payloads(frames)
    decreases |frames|
  {
    if frames != [] && |raw| >= HEADER {
      var f, rest := frames[0], frames[1..];
      assert Encode(frames) + tail == Header(f) + f.payload + (Encode(rest) + tail);
      FirstFrameReads(raw, f, Encode(rest) + tail);
      var behind := raw[FrameEnd(raw)..];
      CutStreamReads(behind, rest, tail);
      assert Text(raw) == raw[HEADER..FrameEnd(raw)] + Text(behind);
      if FrameEnd(raw) == HEADER + |f.payload| {
        assert raw[HEADER..FrameEnd(raw)] == f.payload;
        PrefixBehind(f.payload, Text(behind), Payloads(rest));
      } else {
        assert behind == [];
        assert Text(raw) == f.payload[..FrameEnd(raw) - HEADER];
      }
    }
  }

  lemma EncodeFirst(f: Frame, rest: seq<Frame>)
    requires Sendable([f]) && Sendable(rest)
    ensures Sendable([f] + rest) && Encode([f] + rest) == Header(f) + f.payload + Encode(rest)
  {
    assert ([f] + rest)[1..] == rest;
  }

  /** Either nothing was padded or nothing followed. */
  lemma PaddedFrame(h: seq<byte>, have: seq<byte>, padding: seq<byte>, behind: seq<byte>, rest: seq<byte>, tail: seq<byte>)
    requires behind <= rest + tail && (padding == [] || behind == [])
    ensures h + have + behind <= h + (have + padding) + rest + tail
  {
    var all := h + (have + padding) + rest + tail;
    if padding == [] {
      assert have + padding == have;
      assert all == h + have + (rest + tail);
      PrefixBehind(h + have, behind, rest + tail);
    } else {
      assert all == h + have + (padding + rest + tail);
      PrefixBehind(h + have, [], padding + rest + tail);
    }
  }

  lemma SplitAt(raw: seq<byte>, a: nat, b: nat)
    requires a <= b <= |raw|
    ensures raw == raw[..a] + raw[a..b] + raw[b..]
  {
  }

  /** What the reader accepts is such a stream: nothing else passes for one. */
  lemma {:induction false} AcceptedIsStream(raw: seq<byte>) returns (frames: seq<Frame>, tail: seq<byte>)
    requires Multiplexed(raw)
    ensures StreamOf(raw, frames, tail)
  {
    if |raw| < HEADER {
      frames, tail := [], raw;
    } else {
      var n := Size(raw);
      var end := FrameEnd(raw);
      var have := raw[HEADER..end];
      var padding := seq(n - |have|, i => 0 as byte);
      var f := Frame(raw[0], have + padding);
      HeaderReadBack(raw, f);
      SplitAt(raw, HEADER, end);
      var rest: seq<Frame>;
      rest, tail := AcceptedIsStream(raw[end..]);
      frames := [f] + rest;
      assert frames[1..] == rest;
      hide Multiplexed, Header, Size, Encode;
      PaddedFrame(raw[..HEADER], have, padding, raw[end..], Encode(rest), tail);
      EncodeFirst(f, rest);
    }
  }

  lemma HeaderReadBack(raw: seq<byte>, f: Frame)
    requires |raw| >= HEADER && HeaderFits(raw) && f.stream == raw[0] && |f.payload| == Size(raw)
    ensures |f.payload| < MAX_PAYLOAD && raw[..HEADER] == Header(f)
  {
    Digit(raw[4] as int, raw[5]);
    Digit(raw[4] as int * 256 + raw[5] as int, raw[6]);
    Digit((raw[4] as int * 256 + raw[5] as int) * 256 + raw[6] as int, raw[7]);
    assert raw[1..4][0] == raw[1] == 0 && raw[1..4][1] == raw[2] == 0 && raw[1..4][2] == raw[3] == 0;
  }

  /** The reader takes bytes for a multiplexed stream exactly if they are the start of one. */
  lemma MultiplexedIff(raw: seq<byte>)
    ensures Multiplexed(raw) <==> exists frames, tail :: StreamOf(raw, frames, tail)
  {
    if Multiplexed(raw) {
      var frames, tail := AcceptedIsStream(raw);
    }
    forall frames, tail | StreamOf(raw, frames, tail) ensures Multiplexed(raw) {
      CutStreamReads(raw, frames, tail);
    }
  }

  lemma RoundTrip(frames: seq<Frame>)
    requires Sendable(frames)
    ensures Multiplexed(Encode(frames)) && Text(Encode(frames)) == Payloads(frames)
  {
    assert Encode(frames) + [] == Encode(frames);
    CutStreamReads(Encode(frames), frames, []);
  }

  /** Reading more bytes of a stream only adds text. */
  lemma {:induction false} MoreBytesMoreText(raw: seq<byte>, more: seq<byte>)
    requires raw <= more && Multiplexed(more)
    ensures Multiplexed(raw) && Text(raw) <= Text(more)
    decreases |raw|
  {
    if |raw| >= HEADER {
      var a, b := FrameEnd(raw), FrameEnd(more);
      assert raw[1..4] == more[1..4];
      if a < b {
        assert raw[a..] == [];
        assert raw[HEADER..a] <= more[HEADER..b];
      } else {
        assert raw[HEADER..a] == more[HEADER..b];
        MoreBytesMoreText(raw[a..], more[b..]);
      }
    }
  }
}
