/** Newline framing and the acceptance rule, independent of how bytes arrive. */
module LatestValueFrames {
  import opened Newlines
  import opened Options

  const MAX_FRAME_BYTES: nat := 1024 * 1024

  datatype Snapshot = Snapshot(session: string, sequence: nat, body: string)

  /** The line codec: `decode` is `decode_line` with its exceptions as `None`. */
  datatype Codec = Codec(encode: Snapshot -> string, decode: string -> Option<Snapshot>) {
    /** A snapshot the codec carries: one line, not too long, decoded to itself. */
    predicate Carries(s: Snapshot) {
      '\n' !in encode(s) && |encode(s)| <= MAX_FRAME_BYTES && decode(encode(s)) == Some(s)
    }

    function Frame(s: Snapshot): string {
      encode(s) + "\n"
    }
  }

  /** What a receiver knows: the last snapshot taken and all of them, or that it has failed. */
  datatype Receiver = Receiver(session: string, sequence: nat, accepted: seq<Snapshot>, failed: bool)

  /** One complete line: too long, undecodable or not newer in its session is a protocol error. */
  function TakeLine(codec: Codec, r: Receiver, line: string): Receiver {
    if r.failed || |line| > MAX_FRAME_BYTES then r.(failed := true)
    else
      match codec.decode(line)
      case None => r.(failed := true)
      case Some(s) =>
        if s.session == r.session && r.session != "" && s.sequence <= r.sequence then r.(failed := true)
        else Receiver(s.session, s.sequence, r.accepted + [s], false)
  }

  /** A receiver with the bytes of an unfinished line. */
  datatype Buffered = Buffered(receiver: Receiver, pending: string)

  /** Take the first complete line. */
  function NextLine(codec: Codec, b: Buffered): (next: Buffered)
    requires FindNewline(b.pending) < |b.pending|
    ensures |next.pending| < |b.pending|
    ensures b.receiver.accepted <= next.receiver.accepted
  {
    var i := FindNewline(b.pending);
    Buffered(TakeLine(codec, b.receiver, b.pending[..i]), b.pending[i + 1..])
  }

  /** All complete lines of the pending bytes, stopping at the first error. */
  function Drain(codec: Codec, b: Buffered): (d: Buffered)
    ensures b.receiver.accepted <= d.receiver.accepted
    decreases |b.pending|
  {
    if b.receiver.failed || FindNewline(b.pending) == |b.pending| then b
    else Drain(codec, NextLine(codec, b))
  }

  /** An unfinished line beyond the limit is an error too. */
  function Limit(b: Buffered): Buffered {
    if |b.pending| > MAX_FRAME_BYTES then b.(receiver := b.receiver.(failed := true)) else b
  }

  /** One read. After an error nothing more is read. */
  function Consume(codec: Codec, b: Buffered, chunk: string): (c: Buffered)
    ensures b.receiver.accepted <= c.receiver.accepted
  {
    if b.receiver.failed then b
    else Limit(Drain(codec, b.(pending := b.pending + chunk)))
  }

  function ConsumeAll(codec: Codec, b: Buffered, chunks: seq<string>): Buffered {
    if chunks == [] then b
    else Consume(codec, ConsumeAll(codec, b, chunks[..|chunks| - 1]), chunks[|chunks| - 1])
  }

  function Concat(chunks: seq<string>): string {
    if chunks == [] then "" else Concat(chunks[..|chunks| - 1]) + chunks[|chunks| - 1]
  }

  // ---- draining is the same in one go or in two ----

  lemma FindNewlineAppend(a: string, b: string)
    ensures FindNewline(a + b) == if FindNewline(a) < |a| then FindNewline(a) else |a| + FindNewline(b)
  {
    if a == [] {
      assert a + b == b;
    } else if a[0] != '\n' {
      assert (a + b)[1..] == a[1..] + b;
      FindNewlineAppend(a[1..], b);
    }
  }

  lemma NextLineInTwo(codec: Codec, b: Buffered, more: string)
    requires FindNewline(b.pending) < |b.pending|
    ensures FindNewline(b.pending + more) == FindNewline(b.pending)
    ensures var next := NextLine(codec, b);
            NextLine(codec, b.(pending := b.pending + more)) == next.(pending := next.pending + more)
  {
    var i := FindNewline(b.pending);
    FindNewlineAppend(b.pending, more);
    assert (b.pending + more)[..i] == b.pending[..i];
    assert (b.pending + more)[i + 1..] == b.pending[i + 1..] + more;
  }

  lemma {:induction false} DrainInTwo(codec: Codec, b: Buffered, more: string)
    ensures var first := Drain(codec, b);
            var whole := Drain(codec, b.(pending := b.pending + more));
            if first.receiver.failed then whole.receiver == first.receiver
            else whole == Drain(codec, first.(pending := first.pending + more))
    decreases |b.pending|
  {
    FindNewlineAppend(b.pending, more);
    if !b.receiver.failed && FindNewline(b.pending) < |b.pending| {
      NextLineInTwo(codec, b, more);
      DrainInTwo(codec, NextLine(codec, b), more);
    }
  }

  lemma {:induction false} DrainLeavesOneLine(codec: Codec, b: Buffered)
    ensures var d := Drain(codec, b); !d.receiver.failed ==> FindNewline(d.pending) == |d.pending|
    decreases |b.pending|
  {
    if !b.receiver.failed && FindNewline(b.pending) < |b.pending| {
      DrainLeavesOneLine(codec, NextLine(codec, b));
    }
  }

  /** An unfinished line beyond the limit is rejected however it goes on. */
  lemma OverlongIsDoomed(codec: Codec, b: Buffered, more: string)
    requires !b.receiver.failed && FindNewline(b.pending) == |b.pending| > MAX_FRAME_BYTES
    ensures Limit(Drain(codec, b.(pending := b.pending + more))).receiver == b.receiver.(failed := true)
  {
    FindNewlineAppend(b.pending, more);
    var whole := b.(pending := b.pending + more);
    if FindNewline(whole.pending) < |whole.pending| {
      assert NextLine(codec, whole).receiver == b.receiver.(failed := true);
    }
  }

  /** Two reads in a row do what one read of both would, as far as the receiver can tell. */
  lemma ConsumeInTwo(codec: Codec, b: Buffered, one: string, two: string)
    requires !b.receiver.failed
    ensures var split := Consume(codec, Consume(codec, b, one), two);
            var whole := Consume(codec, b, one + two);
            split.receiver == whole.receiver && (!whole.receiver.failed ==> split == whole)
  {
    var start := b.(pending := b.pending + one);
    var first := Drain(codec, start);
    assert b.pending + (one + two) == (b.pending + one) + two;
    DrainInTwo(codec, start, two);
    DrainLeavesOneLine(codec, start);
    if !first.receiver.failed && |first.pending| > MAX_FRAME_BYTES {
      OverlongIsDoomed(codec, first, two);
    }
  }

  /** Which snapshots are accepted and whether the stream fails depends only on the bytes
      received, not on how the reads split them, the frame limit included. */
  lemma {:induction false} ChunkingInvariance(codec: Codec, b: Buffered, chunks: seq<string>)
    requires !b.receiver.failed && FindNewline(b.pending) == |b.pending| <= MAX_FRAME_BYTES
    ensures var split := ConsumeAll(codec, b, chunks);
            var whole := Consume(codec, b, Concat(chunks));
            split.receiver == whole.receiver && (!whole.receiver.failed ==> split == whole)
  {
    if chunks == [] {
      assert b.pending + "" == b.pending;
    } else {
      var before, last := chunks[..|chunks| - 1], chunks[|chunks| - 1];
      ChunkingInvariance(codec, b, before);
      ConsumeInTwo(codec, b, Concat(before), last);
    }
  }

  // ---- a stream of whole frames ----

  function Frames(codec: Codec, ss: seq<Snapshot>): string {
    if ss == [] then "" else Frames(codec, ss[..|ss| - 1]) + codec.Frame(ss[|ss| - 1])
  }

  /** Sequences rise strictly within one non-empty session, from above what the receiver has. */
  predicate Rising(r: Receiver, ss: seq<Snapshot>) {
    && (forall i :: 0 <= i < |ss| ==> ss[i].session != "")
    && (forall i, j :: 0 <= i < j < |ss| ==> ss[i].session == ss[j].session && ss[i].sequence < ss[j].sequence)
    && (forall i :: 0 <= i < |ss| && ss[i].session == r.session ==> r.sequence < ss[i].sequence)
  }

  function Taken(r: Receiver, ss: seq<Snapshot>): Receiver {
    if ss == [] then r
    else Receiver(ss[|ss| - 1].session, ss[|ss| - 1].sequence, r.accepted + ss, false)
  }

  lemma FrameIsTaken(codec: Codec, r: Receiver, s: Snapshot, rest: string)
    requires !r.failed && codec.Carries(s) && '\n' !in rest
    requires s.session != "" && (s.session == r.session ==> r.sequence < s.sequence)
    ensures Drain(codec, Buffered(r, codec.Frame(s) + rest))
            == Buffered(Receiver(s.session, s.sequence, r.accepted + [s], false), rest)
  {
    var line := codec.encode(s);
    var bytes := codec.Frame(s) + rest;
    assert bytes[..|line|] == line && bytes[|line|] == '\n' && bytes[|line| + 1..] == rest;
    FirstNewline(bytes, |line|);
    NoNewline(rest);
    assert NextLine(codec, Buffered(r, bytes)) == Buffered(TakeLine(codec, r, line), rest);
  }

  /** Whole frames from a rising producer, and the beginning of one more, are received without
      error: exactly the snapshots sent, and the beginning left pending. */
  lemma {:induction false} FramesAreTaken(codec: Codec, r: Receiver, ss: seq<Snapshot>, rest: string)
    requires !r.failed && Rising(r, ss) && '\n' !in rest
    requires forall s :: s in ss ==> codec.Carries(s)
    ensures Drain(codec, Buffered(r, Frames(codec, ss) + rest)) == Buffered(Taken(r, ss), rest)
  {
    if ss == [] {
      assert Frames(codec, ss) + rest == rest;
      NoNewline(rest);
    } else {
      var before, last := ss[..|ss| - 1], ss[|ss| - 1];
      assert ss == before + [last];
      RisingBefore(r, before, last);
      FramesAreTaken(codec, r, before, "");
      assert Frames(codec, before) + "" == Frames(codec, before);
      OneMoreFrame(codec, r, before, last, rest);
    }
  }

  lemma RisingBefore(r: Receiver, ss: seq<Snapshot>, s: Snapshot)
    requires Rising(r, ss + [s])
    ensures Rising(r, ss)
  {
    var all := ss + [s];
    assert forall i :: 0 <= i < |ss| ==> all[i] == ss[i];
  }

  lemma FramesMore(codec: Codec, ss: seq<Snapshot>, s: Snapshot, rest: string)
    ensures Frames(codec, ss + [s]) + rest == Frames(codec, ss) + (codec.Frame(s) + rest)
  {
    assert (ss + [s])[..|ss|] == ss;
  }

  /** Bytes that drain completely leave the rest to be drained on its own. */
  lemma DrainTail(codec: Codec, r: Receiver, bytes: string, after: Receiver, tail: string)
    requires Drain(codec, Buffered(r, bytes)) == Buffered(after, "") && !after.failed
    ensures Drain(codec, Buffered(r, bytes + tail)) == Drain(codec, Buffered(after, tail))
  {
    DrainInTwo(codec, Buffered(r, bytes), tail);
    assert "" + tail == tail;
  }

  lemma OneMoreFrame(codec: Codec, r: Receiver, ss: seq<Snapshot>, s: Snapshot, rest: string)
    requires !r.failed && Rising(r, ss + [s]) && codec.Carries(s) && '\n' !in rest
    requires Drain(codec, Buffered(r, Frames(codec, ss))) == Buffered(Taken(r, ss), "")
    ensures Drain(codec, Buffered(r, Frames(codec, ss + [s]) + rest)) == Buffered(Taken(r, ss + [s]), rest)
  {
    LastIsNewer(r, ss, s);
    FramesMore(codec, ss, s, rest);
    DrainTail(codec, r, Frames(codec, ss), Taken(r, ss), codec.Frame(s) + rest);
    FrameIsTaken(codec, Taken(r, ss), s, rest);
    TakenMore(r, ss, s);
  }

  lemma TakenMore(r: Receiver, ss: seq<Snapshot>, s: Snapshot)
    requires !r.failed
    ensures Taken(r, ss + [s]) == Receiver(s.session, s.sequence, Taken(r, ss).accepted + [s], false)
  {
    assert r.accepted + (ss + [s]) == r.accepted + ss + [s];
    assert ss == [] ==> r.accepted + ss == r.accepted;
  }

  lemma LastIsNewer(r: Receiver, ss: seq<Snapshot>, s: Snapshot)
    requires !r.failed && Rising(r, ss + [s])
    ensures !Taken(r, ss).failed && s.session != ""
    ensures s.session == Taken(r, ss).session ==> Taken(r, ss).sequence < s.sequence
    ensures Taken(r, ss).accepted == r.accepted + ss
  {
    var all := ss + [s];
    assert all[|ss|] == s;
    if ss != [] {
      assert all[|ss| - 1] == ss[|ss| - 1];
    } else {
      assert r.accepted + [] == r.accepted;
    }
  }

  /** The first frame of a new connection is the server's latest one. It is a protocol error exactly
      when the receiver already knows that session up to it. */
  lemma FirstFrame(codec: Codec, r: Receiver, s: Snapshot)
    requires !r.failed && codec.Carries(s)
    ensures var first := Consume(codec, Buffered(r, ""), codec.Frame(s)).receiver;
            first.failed <==> s.session == r.session && r.session != "" && s.sequence <= r.sequence
  {
    var line, bytes := codec.encode(s), codec.Frame(s);
    assert "" + bytes == bytes;
    assert bytes[..|line|] == line && bytes[|line|] == '\n' && bytes[|line| + 1..] == "";
    FirstNewline(bytes, |line|);
    NoNewline("");
    var taken := Buffered(TakeLine(codec, r, line), "");
    assert NextLine(codec, Buffered(r, bytes)) == taken;
    assert Drain(codec, taken) == taken;
  }

  /** A reconnect with nothing published in between: the frame accepted last is sent again and ends
      the new connection, whatever was accepted before it. */
  lemma ResendingIsRefused(codec: Codec, r: Receiver, ss: seq<Snapshot>)
    requires !r.failed && ss != [] && Rising(r, ss) && codec.Carries(ss[|ss| - 1])
    ensures Consume(codec, Buffered(Taken(r, ss), ""), codec.Frame(ss[|ss| - 1])).receiver.failed
  {
    FirstFrame(codec, Taken(r, ss), ss[|ss| - 1]);
  }
}
