/** One connection end to end: a rising producer, the server's outbox, the bytes on the wire,
    the client's buffer and its delivery, interleaved in any order. */
module LatestValueLink {
  import opened Newlines
  import opened Options
  import opened LatestValueFrames
  import opened LatestValueServer

  datatype Link = Link(
    published: seq<Snapshot>,    // handed to the outbox, in order
    started: seq<Snapshot>,      // frames whose write has begun
    outbox: Outbox<Snapshot>,
    written: nat,                // bytes of the active frame the socket has taken
    completed: nat,
    coalesced: nat,
    received: string,            // all bytes the client has read
    wire: string,                // bytes written and not yet read
    client: Buffered,
    latest: Option<Snapshot>,
    delivered: seq<Snapshot>
  )

  datatype Step =
    | Publish(s: Snapshot)
    | Write(n: nat)
    | WriteDone
    | Read(n: nat)
    | Deliver

  function Start(r: Receiver): Link {
    Link([], [], Outbox(None, None), 0, 0, 0, "", "", Buffered(r, ""), None, [])
  }

  predicate Enabled(codec: Codec, r: Receiver, l: Link, step: Step) {
    match step
    case Publish(s) => codec.Carries(s) && Rising(r, l.published + [s])
    case Write(n) => l.outbox.active.Some? && 0 < n <= |codec.Frame(l.outbox.active.value)| - l.written
    case WriteDone => l.outbox.active.Some? && l.written == |codec.Frame(l.outbox.active.value)|
    case Read(n) => 0 < n <= |l.wire|
    case Deliver => l.latest.Some?
  }

  function Next(codec: Codec, r: Receiver, l: Link, step: Step): Link
    requires Enabled(codec, r, l, step)
  {
    match step
    case Publish(s) =>
      var idle := l.outbox.active.None?;
      l.(published := l.published + [s], outbox := l.outbox.Send(s),
         started := if idle then l.started + [s] else l.started, written := if idle then 0 else l.written,
         coalesced := l.coalesced + if l.outbox.Coalesces() then 1 else 0)
    case Write(n) =>
      var frame := codec.Frame(l.outbox.active.value);
      l.(written := l.written + n, wire := l.wire + frame[l.written..l.written + n])
    case WriteDone =>
      l.(outbox := l.outbox.WriteDone(), written := 0, completed := l.completed + 1,
         started := if l.outbox.waiting.Some? then l.started + [l.outbox.waiting.value] else l.started)
    case Read(n) =>
      var client := Consume(codec, l.client, l.wire[..n]);
      l.(received := l.received + l.wire[..n], wire := l.wire[n..], client := client,
         latest := if |client.receiver.accepted| == |l.client.receiver.accepted| then l.latest
                   else Some(client.receiver.accepted[|client.receiver.accepted| - 1]))
    case Deliver => l.(delivered := l.delivered + [l.latest.value], latest := None)
  }

  /** `xs` is obtained from `ys` by leaving elements out. */
  predicate Subsequence(xs: seq<Snapshot>, ys: seq<Snapshot>) {
    if xs == [] then true
    else if ys == [] then false
    else
      var x, y := |xs| - 1, |ys| - 1;
      (xs[x] == ys[y] && Subsequence(xs[..x], ys[..y])) || Subsequence(xs, ys[..y])
  }

  lemma SubsequenceSkip(xs: seq<Snapshot>, ys: seq<Snapshot>, y: Snapshot)
    requires Subsequence(xs, ys)
    ensures Subsequence(xs, ys + [y])
  {
    assert (ys + [y])[..|ys|] == ys;
  }

  lemma SubsequenceTake(xs: seq<Snapshot>, ys: seq<Snapshot>, y: Snapshot)
    requires Subsequence(xs, ys)
    ensures Subsequence(xs + [y], ys + [y])
  {
    assert (xs + [y])[..|xs|] == xs && (ys + [y])[..|ys|] == ys;
  }

  lemma {:induction false} SubsequenceAppend(xs: seq<Snapshot>, ys: seq<Snapshot>, more: seq<Snapshot>)
    requires Subsequence(xs, ys)
    ensures Subsequence(xs, ys + more)
  {
    if more == [] {
      assert ys + more == ys;
    } else {
      SubsequenceAppend(xs, ys, more[..|more| - 1]);
      SubsequenceSkip(xs, ys + more[..|more| - 1], more[|more| - 1]);
      assert ys + more[..|more| - 1] + [more[|more| - 1]] == ys + more;
    }
  }

  lemma {:induction false} SubsequenceTransitive(xs: seq<Snapshot>, ys: seq<Snapshot>, zs: seq<Snapshot>)
    requires Subsequence(xs, ys) && Subsequence(ys, zs)
    ensures Subsequence(xs, zs)
    decreases |zs|, |ys|
  {
    if xs != [] {
      var x, y, z := |xs| - 1, |ys| - 1, |zs| - 1;
      if ys[y] == zs[z] && Subsequence(ys[..y], zs[..z]) {
        if xs[x] == ys[y] && Subsequence(xs[..x], ys[..y]) {
          SubsequenceTransitive(xs[..x], ys[..y], zs[..z]);
        } else {
          SubsequenceTransitive(xs, ys[..y], zs[..z]);
        }
      } else {
        SubsequenceTransitive(xs, ys, zs[..z]);
      }
    }
  }

  lemma {:induction false} PrefixIsSubsequence(xs: seq<Snapshot>, n: nat)
    requires n <= |xs|
    ensures Subsequence(xs[..n], xs)
  {
    if n == |xs| {
      if n > 0 {
        PrefixIsSubsequence(xs[..n - 1], n - 1);
        assert xs[..n][..n - 1] == xs[..n - 1];
        assert xs[..n - 1][..n - 1] == xs[..n - 1];
      }
    } else {
      PrefixIsSubsequence(xs[..|xs| - 1], n);
      assert xs[..|xs| - 1][..n] == xs[..n];
    }
  }

  lemma WithoutWaiting(xs: seq<Snapshot>, waiting: seq<Snapshot>, ys: seq<Snapshot>)
    requires Subsequence(xs + waiting, ys)
    ensures Subsequence(xs, ys)
  {
    PrefixIsSubsequence(xs + waiting, |xs|);
    assert (xs + waiting)[..|xs|] == xs;
    SubsequenceTransitive(xs, xs + waiting, ys);
  }

  // ---- what always holds ----

  function Waiting(o: Option<Snapshot>): seq<Snapshot> {
    if o.Some? then [o.value] else []
  }

  /** Everything written since the connection began: whole frames, and the active one's beginning. */
  function Sent(codec: Codec, l: Link): string
    requires l.outbox.active.Some? ==> l.started != [] && l.written <= |codec.Frame(l.outbox.active.value)|
  {
    if l.outbox.active.Some?
    then Frames(codec, l.started[..|l.started| - 1]) + codec.Frame(l.outbox.active.value)[..l.written]
    else Frames(codec, l.started)
  }

  /** The server side: frames started are published ones in order, what waits is the newest,
      and every frame handed over is written, being written, waiting or overwritten. */
  predicate ServerOk(codec: Codec, r: Receiver, l: Link) {
    && Rising(r, l.published) && (forall s :: s in l.published ==> codec.Carries(s))
    && l.outbox.Ordered()
    && Subsequence(l.started + Waiting(l.outbox.waiting), l.published)
    && (l.outbox.active.Some? ==>
          && l.started != [] && l.outbox.active.value == l.started[|l.started| - 1]
          && l.written <= |codec.Frame(l.outbox.active.value)|)
    && (l.published != [] ==>
          var last := l.published[|l.published| - 1];
          if l.outbox.waiting.Some? then l.outbox.waiting.value == last
          else l.started != [] && l.started[|l.started| - 1] == last)
    && |l.started| == l.completed + (if l.outbox.active.Some? then 1 else 0)
    && |l.published| == l.completed + (if l.outbox.active.Some? then 1 else 0)
                        + (if l.outbox.waiting.Some? then 1 else 0) + l.coalesced
  }

  /** What was delivered, then what waits, is drawn in order from what was accepted after `base`;
      the newest of all is either waiting or the last one delivered. */
  predicate Current(base: seq<Snapshot>, accepted: seq<Snapshot>, latest: Option<Snapshot>, delivered: seq<Snapshot>) {
    && base <= accepted
    && Subsequence(delivered + Waiting(latest), accepted[|base|..])
    && (if base == accepted then latest.None? && delivered == []
        else
          var last := accepted[|accepted| - 1];
          if latest.Some? then latest.value == last
          else delivered != [] && delivered[|delivered| - 1] == last)
  }

  /** The client side: one read of everything received would have left it where it is. */
  predicate ClientOk(codec: Codec, r: Receiver, l: Link) {
    && l.client == Consume(codec, Buffered(r, ""), l.received)
    && !l.client.receiver.failed
    && Current(r.accepted, l.client.receiver.accepted, l.latest, l.delivered)
  }

  predicate LinkOk(codec: Codec, r: Receiver, l: Link) {
    && ServerOk(codec, r, l) && ClientOk(codec, r, l)
    && l.received + l.wire == Sent(codec, l)
  }

  // ---- a rising producer's stream, cut anywhere ----

  lemma {:induction false} InOriginal(xs: seq<Snapshot>, ys: seq<Snapshot>)
    requires Subsequence(xs, ys)
    ensures forall x :: x in xs ==> x in ys
  {
    if xs != [] {
      var x, y := |xs| - 1, |ys| - 1;
      if xs[x] == ys[y] && Subsequence(xs[..x], ys[..y]) {
        InOriginal(xs[..x], ys[..y]);
        assert xs == xs[..x] + [xs[x]];
      } else {
        InOriginal(xs, ys[..y]);
      }
    }
  }

  lemma {:induction false} SubsequenceRises(r: Receiver, xs: seq<Snapshot>, ys: seq<Snapshot>)
    requires Subsequence(xs, ys) && Rising(r, ys)
    ensures Rising(r, xs)
  {
    if xs != [] {
      var x, y := |xs| - 1, |ys| - 1;
      assert ys == ys[..y] + [ys[y]];
      RisingBefore(r, ys[..y], ys[y]);
      if xs[x] == ys[y] && Subsequence(xs[..x], ys[..y]) {
        SubsequenceRises(r, xs[..x], ys[..y]);
        InOriginal(xs[..x], ys[..y]);
        RisesByOne(r, xs[..x], ys[..y], ys[y]);
        assert xs == xs[..x] + [ys[y]];
      } else {
        SubsequenceRises(r, xs, ys[..y]);
      }
    }
  }

  lemma RisesByOne(r: Receiver, xs: seq<Snapshot>, ys: seq<Snapshot>, s: Snapshot)
    requires Rising(r, xs) && Rising(r, ys + [s]) && forall x :: x in xs ==> x in ys
    ensures Rising(r, xs + [s])
  {
    var all := ys + [s];
    assert all[|ys|] == s;
    forall i | 0 <= i < |xs|
      ensures xs[i].session == s.session && xs[i].sequence < s.sequence
    {
      assert xs[i] in ys;
      var j :| 0 <= j < |ys| && ys[j] == xs[i];
      assert all[j] == xs[i];
    }
  }

  /** The bytes hold the first `k` snapshots whole and `rest` of the next. */
  ghost predicate CutAfter(codec: Codec, r: Receiver, ss: seq<Snapshot>, bytes: string, k: nat, rest: string) {
    && k <= |ss| && Consume(codec, Buffered(r, ""), bytes) == Buffered(Taken(r, ss[..k]), rest)
    && (bytes == Frames(codec, ss) ==> k == |ss| && rest == "")
  }

  /** Cut in the last frame or at its end. */
  lemma CutInLast(codec: Codec, r: Receiver, ss: seq<Snapshot>, last: Snapshot, part: string)
    returns (k: nat, rest: string)
    requires !r.failed && Rising(r, ss + [last]) && part <= codec.Frame(last)
    requires forall s :: s in ss + [last] ==> codec.Carries(s)
    ensures CutAfter(codec, r, ss + [last], Frames(codec, ss) + part, k, rest)
  {
    var all, frame := ss + [last], codec.Frame(last);
    assert all[..|ss|] == ss;
    RisingBefore(r, ss, last);
    if |part| == |frame| {
      k, rest := |all|, "";
      WholeTaken(codec, r, all, "");
      assert part == frame && Frames(codec, all) + "" == Frames(codec, ss) + part;
      assert all[..|all|] == all;
    } else {
      k, rest := |ss|, part;
      assert last in all && part == codec.encode(last)[..|part|];
      WholeTaken(codec, r, ss, part);
    }
  }

  lemma CutEarlier(codec: Codec, r: Receiver, ss: seq<Snapshot>, last: Snapshot, bytes: string, k: nat, rest: string)
    requires CutAfter(codec, r, ss, bytes, k, rest) && |bytes| < |Frames(codec, ss)|
    ensures CutAfter(codec, r, ss + [last], bytes, k, rest)
  {
    assert (ss + [last])[..|ss|] == ss;
    assert ss[..k] == (ss + [last])[..k];
  }

  /** A connection cut anywhere in a rising stream has delivered some frames whole and at most
      the beginning of the next. */
  lemma {:induction false} PrefixTaken(codec: Codec, r: Receiver, ss: seq<Snapshot>, bytes: string)
    returns (k: nat, rest: string)
    requires !r.failed && Rising(r, ss) && bytes <= Frames(codec, ss)
    requires forall s :: s in ss ==> codec.Carries(s)
    ensures CutAfter(codec, r, ss, bytes, k, rest)
  {
    if ss == [] {
      k, rest := 0, "";
      WholeTaken(codec, r, ss, rest);
      assert bytes == "" && Frames(codec, ss) + rest == bytes;
    } else {
      var before, last := ss[..|ss| - 1], ss[|ss| - 1];
      var frames := Frames(codec, before);
      assert ss == before + [last];
      RisingBefore(r, before, last);
      if |bytes| < |frames| {
        assert bytes <= frames;
        k, rest := PrefixTaken(codec, r, before, bytes);
        CutEarlier(codec, r, before, last, bytes, k, rest);
      } else {
        var part := bytes[|frames|..];
        assert bytes == frames + part && part <= codec.Frame(last);
        k, rest := CutInLast(codec, r, before, last, part);
      }
    }
  }

  lemma WholeTaken(codec: Codec, r: Receiver, ss: seq<Snapshot>, rest: string)
    requires !r.failed && Rising(r, ss) && '\n' !in rest && |rest| <= MAX_FRAME_BYTES
    requires forall s :: s in ss ==> codec.Carries(s)
    ensures Consume(codec, Buffered(r, ""), Frames(codec, ss) + rest) == Buffered(Taken(r, ss), rest)
  {
    FramesAreTaken(codec, r, ss, rest);
    assert "" + (Frames(codec, ss) + rest) == Frames(codec, ss) + rest;
  }

  // ---- steps ----

  lemma PublishOk(codec: Codec, r: Receiver, l: Link, s: Snapshot)
    requires ServerOk(codec, r, l) && Enabled(codec, r, l, Publish(s))
    ensures var next := Next(codec, r, l, Publish(s));
            ServerOk(codec, r, next) && Sent(codec, next) == Sent(codec, l)
  {
    var started := l.started;
    WithoutWaiting(started, Waiting(l.outbox.waiting), l.published);
    SubsequenceTake(started, l.published, s);
    if l.outbox.active.None? {
      assert (started + [s]) + [] == started + [s];
      assert (started + [s])[..|started|] == started;
      assert codec.Frame(s)[..0] == "";
    }
  }

  lemma WriteDoneOk(codec: Codec, r: Receiver, l: Link)
    requires ServerOk(codec, r, l) && Enabled(codec, r, l, WriteDone)
    ensures var next := Next(codec, r, l, WriteDone);
            ServerOk(codec, r, next) && Sent(codec, next) == Sent(codec, l)
  {
    var frame := codec.Frame(l.outbox.active.value);
    assert frame[..l.written] == frame;
    if l.outbox.waiting.Some? {
      var w := l.outbox.waiting.value;
      assert (l.started + [w])[..|l.started|] == l.started;
      assert codec.Frame(w)[..0] == "";
      assert Frames(codec, l.started) + "" == Frames(codec, l.started);
      assert (l.started + [w]) + [] == l.started + [w];
    }
  }

  lemma WriteOk(codec: Codec, r: Receiver, l: Link, n: nat)
    requires ServerOk(codec, r, l) && Enabled(codec, r, l, Write(n))
    ensures var next := Next(codec, r, l, Write(n));
            ServerOk(codec, r, next)
            && (l.received + l.wire == Sent(codec, l) ==> l.received + next.wire == Sent(codec, next))
  {
    var frame := codec.Frame(l.outbox.active.value);
    var more := frame[l.written..l.written + n];
    MoreSent(codec, r, l, Next(codec, r, l, Write(n)), frame, more);
    assert l.received + (l.wire + more) == l.received + l.wire + more;
  }

  /** Writing on in the active frame sends that much more. */
  lemma MoreSent(codec: Codec, r: Receiver, l: Link, next: Link, frame: string, more: string)
    requires ServerOk(codec, r, l) && l.outbox.active.Some? && frame == codec.Frame(l.outbox.active.value)
    requires next.published == l.published && next.outbox == l.outbox && next.started == l.started
    requires next.completed == l.completed && next.coalesced == l.coalesced
    requires l.written <= next.written <= |frame| && more == frame[l.written..next.written]
    ensures ServerOk(codec, r, next) && Sent(codec, next) == Sent(codec, l) + more
  {
    var before := Frames(codec, l.started[..|l.started| - 1]);
    assert frame[..l.written] + more == frame[..next.written];
    assert before + frame[..l.written] + more == before + (frame[..l.written] + more);
  }

  /** What has been sent is the beginning of the frames started. */
  lemma SentIsPrefix(codec: Codec, r: Receiver, l: Link)
    requires ServerOk(codec, r, l)
    ensures Sent(codec, l) <= Frames(codec, l.started)
    ensures l.outbox.active.None? ==> Sent(codec, l) == Frames(codec, l.started)
  {
  }

  /** What the server has started rises, and the codec carries it. */
  lemma StartedRises(codec: Codec, r: Receiver, l: Link)
    requires ServerOk(codec, r, l)
    ensures Subsequence(l.started, l.published) && Rising(r, l.started)
    ensures forall s :: s in l.started ==> codec.Carries(s)
  {
    WithoutWaiting(l.started, Waiting(l.outbox.waiting), l.published);
    SubsequenceRises(r, l.started, l.published);
    InOriginal(l.started, l.published);
  }

  /** Nothing the server sends makes the client fail, wherever the stream is cut. */
  lemma NothingFails(codec: Codec, r: Receiver, l: Link, bytes: string)
    requires !r.failed && ServerOk(codec, r, l) && bytes <= Sent(codec, l)
    ensures !Consume(codec, Buffered(r, ""), bytes).receiver.failed
  {
    StartedRises(codec, r, l);
    SentIsPrefix(codec, r, l);
    var k, rest := PrefixTaken(codec, r, l.started, bytes);
  }

  lemma ReadOk(codec: Codec, r: Receiver, l: Link, n: nat)
    requires !r.failed && LinkOk(codec, r, l) && Enabled(codec, r, l, Read(n))
    ensures LinkOk(codec, r, Next(codec, r, l, Read(n)))
  {
    var next := Next(codec, r, l, Read(n));
    SplitWire(l.received, l.wire, n);
    SameServer(codec, r, l, next);
    ReadClientOk(codec, r, l, next, l.wire[..n]);
  }

  /** A step of the client alone. */
  lemma SameServer(codec: Codec, r: Receiver, l: Link, next: Link)
    requires ServerOk(codec, r, l) && next.published == l.published && next.outbox == l.outbox
    requires next.started == l.started && next.written == l.written && next.completed == l.completed
    requires next.coalesced == l.coalesced
    ensures ServerOk(codec, r, next) && Sent(codec, next) == Sent(codec, l)
  {
  }

  lemma ReadClientOk(codec: Codec, r: Receiver, l: Link, next: Link, more: string)
    requires !r.failed && ServerOk(codec, r, l) && ClientOk(codec, r, l) && l.received + more <= Sent(codec, l)
    requires next.received == l.received + more && next.client == Consume(codec, l.client, more)
    requires next.delivered == l.delivered
    requires next.latest == if |next.client.receiver.accepted| == |l.client.receiver.accepted| then l.latest
                            else Some(next.client.receiver.accepted[|next.client.receiver.accepted| - 1])
    ensures ClientOk(codec, r, next)
  {
    NothingFails(codec, r, l, l.received + more);
    ConsumeInTwo(codec, Buffered(r, ""), l.received, more);
    NewestWaits(r.accepted, l.client.receiver.accepted, next.client.receiver.accepted, l.latest, l.delivered);
  }

  lemma SplitWire(received: string, wire: string, n: nat)
    requires n <= |wire|
    ensures (received + wire[..n]) + wire[n..] == received + wire
  {
  }

  lemma NewestFollows(xs: seq<Snapshot>, ys: seq<Snapshot>, grown: seq<Snapshot>)
    requires Subsequence(xs, ys) && ys < grown
    ensures Subsequence(xs + [grown[|grown| - 1]], grown)
  {
    var more, last := grown[|ys|..|grown| - 1], grown[|grown| - 1];
    TakenLater(xs, ys, more, last);
    LastApart(ys, grown);
  }

  lemma LastApart(ys: seq<Snapshot>, grown: seq<Snapshot>)
    requires ys < grown
    ensures ys + grown[|ys|..|grown| - 1] + [grown[|grown| - 1]] == grown
  {
  }

  lemma TakenLater(xs: seq<Snapshot>, ys: seq<Snapshot>, more: seq<Snapshot>, last: Snapshot)
    requires Subsequence(xs, ys)
    ensures Subsequence(xs + [last], ys + more + [last])
  {
    SubsequenceAppend(xs, ys, more);
    SubsequenceTake(xs, ys + more, last);
  }

  /** Accepting more replaces what waits by the newest. */
  lemma RestGrows(base: seq<Snapshot>, was: seq<Snapshot>, now: seq<Snapshot>, before: seq<Snapshot>,
                  after: seq<Snapshot>)
    requires base <= was && was < now && before == was[|base|..] && after == now[|base|..]
    ensures before < after && after[|after| - 1] == now[|now| - 1] && base < now
  {
  }

  lemma WaitsNow(base: seq<Snapshot>, now: seq<Snapshot>, delivered: seq<Snapshot>, after: seq<Snapshot>)
    requires base < now && after == now[|base|..] && Subsequence(delivered + [now[|now| - 1]], after)
    ensures Current(base, now, Some(now[|now| - 1]), delivered)
  {
  }

  lemma NewestWaits(base: seq<Snapshot>, was: seq<Snapshot>, now: seq<Snapshot>,
                    latest: Option<Snapshot>, delivered: seq<Snapshot>)
    requires was <= now && Current(base, was, latest, delivered)
    ensures Current(base, now, if |now| == |was| then latest else Some(now[|now| - 1]), delivered)
  {
    if |now| == |was| {
      assert now == was;
    } else {
      var before, after := was[|base|..], now[|base|..];
      RestGrows(base, was, now, before, after);
      WithoutWaiting(delivered, Waiting(latest), before);
      NewestFollows(delivered, before, after);
      WaitsNow(base, now, delivered, after);
    }
  }

  lemma DeliverOk(codec: Codec, r: Receiver, l: Link)
    requires LinkOk(codec, r, l) && Enabled(codec, r, l, Deliver)
    ensures LinkOk(codec, r, Next(codec, r, l, Deliver))
  {
    var next := Next(codec, r, l, Deliver);
    assert (l.delivered + [l.latest.value]) + [] == l.delivered + [l.latest.value];
    SameServer(codec, r, l, next);
  }

  /** A step that leaves the client alone keeps what it knows. */
  lemma ServerStep(codec: Codec, r: Receiver, l: Link, next: Link)
    requires LinkOk(codec, r, l) && ServerOk(codec, r, next)
    requires next.received == l.received && next.client == l.client
    requires next.latest == l.latest && next.delivered == l.delivered
    requires l.received + next.wire == Sent(codec, next)
    ensures LinkOk(codec, r, next)
  {
  }

  lemma StepOk(codec: Codec, r: Receiver, l: Link, step: Step)
    requires !r.failed && LinkOk(codec, r, l) && Enabled(codec, r, l, step)
    ensures LinkOk(codec, r, Next(codec, r, l, step))
  {
    var next := Next(codec, r, l, step);
    match step
    case Publish(s) =>
      PublishOk(codec, r, l, s);
      ServerStep(codec, r, l, next);
    case Write(n) =>
      WriteOk(codec, r, l, n);
      ServerStep(codec, r, l, next);
    case WriteDone =>
      WriteDoneOk(codec, r, l);
      ServerStep(codec, r, l, next);
    case Read(n) => ReadOk(codec, r, l, n);
    case Deliver => DeliverOk(codec, r, l);
  }

  // ---- whole runs of a connection ----

  predicate Runs(codec: Codec, r: Receiver, steps: seq<Step>)
    decreases |steps|, 0
  {
    steps == [] || (var n := |steps| - 1;
                    Runs(codec, r, steps[..n]) && Enabled(codec, r, After(codec, r, steps[..n]), steps[n]))
  }

  function After(codec: Codec, r: Receiver, steps: seq<Step>): Link
    requires Runs(codec, r, steps)
    decreases |steps|, 1
  {
    if steps == [] then Start(r)
    else
      var n := |steps| - 1;
      Next(codec, r, After(codec, r, steps[..n]), steps[n])
  }

  lemma {:induction false} RunOk(codec: Codec, r: Receiver, steps: seq<Step>)
    requires !r.failed && Runs(codec, r, steps)
    ensures LinkOk(codec, r, After(codec, r, steps))
  {
    if steps == [] {
      NoNewline("");
      assert "" + "" == "";
    } else {
      var n := |steps| - 1;
      RunOk(codec, r, steps[..n]);
      StepOk(codec, r, After(codec, r, steps[..n]), steps[n]);
    }
  }

  /** On one connection with a rising producer, however the steps interleave: no protocol error
      occurs, delivered snapshots are published ones in order, and every publication is written,
      being written, waiting or coalesced. */
  lemma ConnectionIsFaithful(codec: Codec, r: Receiver, steps: seq<Step>)
    requires !r.failed && Runs(codec, r, steps)
    ensures var l := After(codec, r, steps);
            && !l.client.receiver.failed
            && Subsequence(l.delivered, l.published)
            && |l.published| == l.completed + (if l.outbox.active.Some? then 1 else 0)
                                + (if l.outbox.waiting.Some? then 1 else 0) + l.coalesced
  {
    var l := After(codec, r, steps);
    RunOk(codec, r, steps);
    StartedRises(codec, r, l);
    SentIsPrefix(codec, r, l);
    var k, rest := PrefixTaken(codec, r, l.started, l.received);
    var accepted := l.client.receiver.accepted;
    AcceptedAreStarted(codec, r, l.started, k, accepted);
    WithoutWaiting(l.delivered, Waiting(l.latest), l.started[..k]);
    PrefixIsSubsequence(l.started, k);
    SubsequenceTransitive(l.delivered, l.started[..k], l.started);
    SubsequenceTransitive(l.delivered, l.started, l.published);
  }

  lemma AcceptedAreStarted(codec: Codec, r: Receiver, started: seq<Snapshot>, k: nat, accepted: seq<Snapshot>)
    requires k <= |started| && accepted == Taken(r, started[..k]).accepted
    ensures |r.accepted| <= |accepted| && accepted[|r.accepted|..] == started[..k]
  {
  }

  /** Nothing being written, on the wire or waiting for delivery. */
  predicate Quiet(l: Link) {
    l.outbox.active.None? && l.wire == "" && l.latest.None?
  }

  /** Once everything has come to rest, the last snapshot delivered is the last one published. */
  lemma QuietMeansCurrent(codec: Codec, r: Receiver, steps: seq<Step>)
    requires !r.failed && Runs(codec, r, steps) && Quiet(After(codec, r, steps))
    requires After(codec, r, steps).published != []
    ensures var l := After(codec, r, steps);
            l.delivered != [] && l.delivered[|l.delivered| - 1] == l.published[|l.published| - 1]
  {
    var l := After(codec, r, steps);
    RunOk(codec, r, steps);
    StartedRises(codec, r, l);
    SentIsPrefix(codec, r, l);
    assert l.received + "" == l.received;
    AllAccepted(codec, r, l.started, l.received);
    NewestIsLast(r.accepted, l.started, l.client.receiver.accepted, l.latest, l.delivered);
  }

  /** All bytes of the frames started have been read, so all of them were accepted. */
  lemma AllAccepted(codec: Codec, r: Receiver, started: seq<Snapshot>, received: string)
    requires !r.failed && Rising(r, started) && received == Frames(codec, started)
    requires forall s :: s in started ==> codec.Carries(s)
    ensures Consume(codec, Buffered(r, ""), received).receiver.accepted == r.accepted + started
  {
    WholeTaken(codec, r, started, "");
    assert Frames(codec, started) + "" == received;
    assert r.accepted + [] == r.accepted;
  }

  lemma NewestIsLast(base: seq<Snapshot>, started: seq<Snapshot>, accepted: seq<Snapshot>,
                     latest: Option<Snapshot>, delivered: seq<Snapshot>)
    requires accepted == base + started && Current(base, accepted, latest, delivered) && latest.None?
    ensures started != [] ==> delivered != [] && delivered[|delivered| - 1] == started[|started| - 1]
  {
    if started != [] {
      assert accepted[|accepted| - 1] == started[|started| - 1] && |accepted| > |base|;
    }
  }
}
