/** Length-prefixed frames, and what a stream of bytes decodes to however it is cut into chunks. */
module Frames {
  import opened Sequences

  newtype Byte = x: int | 0 <= x < 256

  const FrameMax: nat := 1024 * 1024
  const BufferMax: nat := FrameMax * 17

  function Prefix(n: nat): (p: seq<Byte>)
    requires n < 0x1_0000_0000
    ensures |p| == 4
  {
    [(n / 0x100_0000) as Byte, (n / 0x1_0000 % 256) as Byte, (n / 256 % 256) as Byte, (n % 256) as Byte]
  }

  function Length(s: seq<Byte>): nat
    requires |s| >= 4
  {
    s[0] as nat * 0x100_0000 + s[1] as nat * 0x1_0000 + s[2] as nat * 256 + s[3] as nat
  }

  function Frame(body: seq<Byte>): seq<Byte>
    requires |body| < 0x1_0000_0000
  {
    Prefix(|body|) + body
  }

  /** What the bytes so far amount to: whole bodies, an unfinished rest, and whether the next frame
      is too long to be accepted. */
  datatype Decoded = Decoded(bodies: seq<seq<Byte>>, rest: seq<Byte>, refused: bool)

  predicate Whole(s: seq<Byte>) {
    |s| >= 4 && Length(s) <= FrameMax && |s| >= Length(s) + 4
  }

  predicate TooLong(s: seq<Byte>) {
    |s| >= 4 && Length(s) > FrameMax
  }

  function Body(s: seq<Byte>): seq<Byte>
    requires Whole(s)
  {
    s[4..Length(s) + 4]
  }

  function Tail(s: seq<Byte>): seq<Byte>
    requires Whole(s)
  {
    s[Length(s) + 4..]
  }

  function Decode(stream: seq<Byte>): Decoded
    decreases |stream|
  {
    if !Whole(stream) then Decoded([], stream, TooLong(stream))
    else
      var later := Decode(Tail(stream));
      Decoded([Body(stream)] + later.bodies, later.rest, later.refused)
  }

  function FrameAll(bodies: seq<seq<Byte>>): seq<Byte>
    requires forall b :: b in bodies ==> |b| < 0x1_0000_0000
  {
    if bodies == [] then [] else Frame(bodies[0]) + FrameAll(bodies[1..])
  }

  function Concat(chunks: seq<seq<Byte>>): seq<Byte> {
    if chunks == [] then [] else chunks[0] + Concat(chunks[1..])
  }

  // ---------- Frames and their bodies ----------

  lemma LengthOfPrefix(n: nat, s: seq<Byte>)
    requires n < 0x1_0000_0000
    ensures Length(Prefix(n) + s) == n
  {
    var p := Prefix(n) + s;
    assert n == n / 0x100_0000 * 0x100_0000 + n / 0x1_0000 % 256 * 0x1_0000 + n / 256 % 256 * 256 + n % 256;
    assert p[0] == Prefix(n)[0] && p[1] == Prefix(n)[1] && p[2] == Prefix(n)[2] && p[3] == Prefix(n)[3];
  }

  lemma PrefixOfLength(s: seq<Byte>)
    requires |s| >= 4
    ensures Length(s) < 0x1_0000_0000 && Prefix(Length(s)) == s[..4]
  {
    var a, b, c, d := s[0] as nat, s[1] as nat, s[2] as nat, s[3] as nat;
    assert Length(s) == ((a * 256 + b) * 256 + c) * 256 + d;
    assert Length(s) / 256 == (a * 256 + b) * 256 + c;
    assert Length(s) / 0x1_0000 == a * 256 + b;
    assert Length(s) / 0x100_0000 == a;
  }

  /** Encoding and decoding are inverse: a concatenation of frames decodes to its bodies exactly when
      none is longer than a frame may be. */
  lemma {:induction false} RoundTrip(bodies: seq<seq<Byte>>)
    requires forall b :: b in bodies ==> |b| < 0x1_0000_0000
    ensures Decode(FrameAll(bodies)) == Decoded(bodies, [], false) <==> forall b :: b in bodies ==> |b| <= FrameMax
  {
    if bodies != [] {
      var later := FrameAll(bodies[1..]);
      FrameIsWhole(bodies[0], later);
      assert bodies[0] in bodies && forall b :: b in bodies <==> b == bodies[0] || b in bodies[1..];
      if |bodies[0]| <= FrameMax {
        RoundTrip(bodies[1..]);
        assert ([bodies[0]] + Decode(later).bodies)[1..] == Decode(later).bodies;
      }
    }
  }

  lemma FrameIsWhole(body: seq<Byte>, later: seq<Byte>)
    requires |body| < 0x1_0000_0000
    ensures var s := Frame(body) + later;
      if |body| <= FrameMax then Whole(s) && Body(s) == body && Tail(s) == later else TooLong(s)
  {
    var s := Frame(body) + later;
    assert s == Prefix(|body|) + (body + later);
    LengthOfPrefix(|body|, body + later);
  }

  lemma WholeIsFrame(s: seq<Byte>)
    requires Whole(s)
    ensures s == Frame(Body(s)) + Tail(s) && |Body(s)| <= FrameMax
  {
    PrefixOfLength(s);
    assert s == s[..4] + Body(s) + Tail(s);
  }

  lemma WholeMore(s: seq<Byte>, t: seq<Byte>)
    ensures Whole(s) ==> Whole(s + t) && Body(s + t) == Body(s) && Tail(s + t) == Tail(s) + t
    ensures TooLong(s) ==> TooLong(s + t)
  {
    if |s| >= 4 {
      assert Length(s + t) == Length(s);
    }
  }

  lemma {:induction false} DecodedIsBounded(stream: seq<Byte>)
    ensures var d := Decode(stream);
      && (forall b :: b in d.bodies ==> |b| <= FrameMax)
      && (!d.refused ==> |d.rest| <= FrameMax + 3)
    decreases |stream|
  {
    if Whole(stream) {
      WholeIsFrame(stream);
      DecodedIsBounded(Tail(stream));
    }
  }

  /** Whatever is decoded accounts for every byte of the stream. */
  lemma {:induction false} DecodedAccounts(stream: seq<Byte>)
    ensures var d := Decode(stream);
      (forall b :: b in d.bodies ==> |b| <= FrameMax) && stream == FrameAll(d.bodies) + d.rest
    decreases |stream|
  {
    DecodedIsBounded(stream);
    if Whole(stream) {
      WholeIsFrame(stream);
      DecodedAccounts(Tail(stream));
      OneMoreFrame(Body(stream), Decode(Tail(stream)).bodies, Decode(Tail(stream)).rest);
    }
  }

  lemma OneMoreFrame(body: seq<Byte>, bodies: seq<seq<Byte>>, rest: seq<Byte>)
    requires |body| <= FrameMax && forall b :: b in bodies ==> |b| <= FrameMax
    ensures FrameAll([body] + bodies) + rest == Frame(body) + (FrameAll(bodies) + rest)
  {
    assert ([body] + bodies)[1..] == bodies;
  }

  // ---------- Chunks ----------

  /** What was whole stays whole when more bytes come, and the rest goes on from where it was. */
  lemma {:induction false} DecodeMore(s: seq<Byte>, t: seq<Byte>)
    ensures var d := Decode(s);
      var more := Decode(d.rest + t);
      Decode(s + t) == Decoded(d.bodies + more.bodies, more.rest, more.refused)
    ensures Decode(s).refused ==> Decode(Decode(s).rest + t).refused && Decode(Decode(s).rest + t).bodies == []
    decreases |s|
  {
    WholeMore(s, t);
    if Whole(s) {
      DecodeMore(Tail(s), t);
      var later, more := Decode(Tail(s)), Decode(Decode(Tail(s)).rest + t);
      Associates([Body(s)], later.bodies, more.bodies);
    }
  }

  /** The connection's state: what is buffered, what has been handed on, and whether it is closed. */
  datatype Receiver = Receiver(buffer: seq<Byte>, bodies: seq<seq<Byte>>, closed: bool)

  predicate Overflows(r: Receiver, chunk: seq<Byte>) {
    |r.buffer| + |chunk| > BufferMax
  }

  function Feed(r: Receiver, chunk: seq<Byte>): Receiver {
    if r.closed then r
    else if Overflows(r, chunk) then r.(closed := true)
    else
      var d := Decode(r.buffer + chunk);
      Receiver(d.rest, r.bodies + d.bodies, d.refused)
  }

  function FeedAll(r: Receiver, chunks: seq<seq<Byte>>): Receiver
    decreases |chunks|
  {
    if chunks == [] then r else FeedAll(Feed(r, chunks[0]), chunks[1..])
  }

  predicate NeverOverflows(r: Receiver, chunks: seq<seq<Byte>>)
    decreases |chunks|
  {
    chunks != [] && !r.closed ==> !Overflows(r, chunks[0]) && NeverOverflows(Feed(r, chunks[0]), chunks[1..])
  }

  const Connected := Receiver([], [], false)

  /** However a stream is cut up, the bodies handed on are those of the whole stream, and the
      connection is closed exactly when the stream holds a frame that is too long. */
  lemma ChunkingDoesNotMatter(chunks: seq<seq<Byte>>)
    requires NeverOverflows(Connected, chunks)
    ensures var r, d := FeedAll(Connected, chunks), Decode(Concat(chunks));
      r.bodies == d.bodies && r.closed == d.refused && (!r.closed ==> r.buffer == d.rest)
  {
    ChunksFrom([], Connected, chunks);
    assert [] + Concat(chunks) == Concat(chunks);
  }

  /** What the receiver has made of the bytes it has seen. */
  predicate HasDecoded(r: Receiver, seen: seq<Byte>) {
    var d := Decode(seen);
    r.bodies == d.bodies && r.closed == d.refused && (!r.closed ==> r.buffer == d.rest)
  }

  lemma {:induction false} ChunksFrom(seen: seq<Byte>, r: Receiver, chunks: seq<seq<Byte>>)
    requires HasDecoded(r, seen) && NeverOverflows(r, chunks)
    ensures HasDecoded(FeedAll(r, chunks), seen + Concat(chunks))
    decreases |chunks|
  {
    if chunks == [] {
      assert seen + [] == seen;
    } else if r.closed {
      ClosedDecodes(seen, r, chunks);
    } else {
      FeedDecodes(seen, r, chunks[0]);
      assert seen + Concat(chunks) == (seen + chunks[0]) + Concat(chunks[1..]);
      ChunksFrom(seen + chunks[0], Feed(r, chunks[0]), chunks[1..]);
    }
  }

  lemma ClosedDecodes(seen: seq<Byte>, r: Receiver, chunks: seq<seq<Byte>>)
    requires HasDecoded(r, seen) && r.closed
    ensures HasDecoded(FeedAll(r, chunks), seen + Concat(chunks))
  {
    StaysClosed(r, chunks);
    DecodeMore(seen, Concat(chunks));
  }

  lemma FeedDecodes(seen: seq<Byte>, r: Receiver, chunk: seq<Byte>)
    requires HasDecoded(r, seen) && !r.closed && !Overflows(r, chunk)
    ensures HasDecoded(Feed(r, chunk), seen + chunk)
  {
    DecodeMore(seen, chunk);
  }

  lemma {:induction false} StaysClosed(r: Receiver, chunks: seq<seq<Byte>>)
    requires r.closed
    ensures FeedAll(r, chunks) == r
    decreases |chunks|
  {
    if chunks != [] {
      StaysClosed(r, chunks[1..]);
    }
  }

  /** Chunks that leave room for one unfinished frame never overflow the buffer. */
  lemma {:induction false} SmallChunksNeverOverflow(r: Receiver, chunks: seq<seq<Byte>>)
    requires !r.closed ==> |r.buffer| <= FrameMax + 3
    requires forall c :: c in chunks ==> |c| <= 16 * FrameMax - 3
    ensures NeverOverflows(r, chunks)
    decreases |chunks|
  {
    if chunks != [] && !r.closed {
      DecodedIsBounded(r.buffer + chunks[0]);
      SmallChunksNeverOverflow(Feed(r, chunks[0]), chunks[1..]);
    }
  }
}
