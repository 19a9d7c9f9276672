/** The consuming side: bytes in, at most one snapshot waiting to be delivered. */
module LatestValueClient {
  import opened Newlines
  import opened Options
  import opened LatestValueFrames

  /** Within one non-empty session sequences only rise from one accepted snapshot to the next. */
  predicate Rises(accepted: seq<Snapshot>) {
    forall i :: 0 <= i < |accepted| - 1 && accepted[i].session == accepted[i + 1].session && accepted[i].session != ""
      ==> accepted[i].sequence < accepted[i + 1].sequence
  }

  /** `picked` is drawn from `from` at the rising positions `marks`. */
  predicate Picked(picked: seq<Snapshot>, from: seq<Snapshot>, marks: seq<nat>) {
    && |marks| == |picked|
    && (forall i :: 0 <= i < |marks| ==> marks[i] < |from| && picked[i] == from[marks[i]])
    && (forall i, j :: 0 <= i < j < |marks| ==> marks[i] < marks[j])
  }

  /** What was accepted rises up to the session and sequence now known. */
  predicate InSequence(accepted: seq<Snapshot>, session: string, sequence: nat) {
    && Rises(accepted)
    && (accepted != [] ==> var last := accepted[|accepted| - 1]; last.session == session && last.sequence == sequence)
  }

  /** What was delivered was accepted in that order, and what waits was accepted last. */
  predicate Waits(latest: Option<Snapshot>, accepted: seq<Snapshot>, delivered: seq<Snapshot>, marks: seq<nat>) {
    && Picked(delivered, accepted, marks)
    && (latest.Some? ==>
          && accepted != [] && latest.value == accepted[|accepted| - 1]
          && (marks == [] || marks[|marks| - 1] < |accepted| - 1))
  }

  lemma ConsumeIsLimited(codec: Codec, b: Buffered, chunk: string, start: Buffered)
    requires !b.receiver.failed && start == b.(pending := b.pending + chunk)
    ensures Consume(codec, b, chunk) == Limit(Drain(codec, start))
  {
  }

  lemma AcceptOne(accepted: seq<Snapshot>, session: string, sequence: nat, s: Snapshot,
                  latest: Option<Snapshot>, delivered: seq<Snapshot>, marks: seq<nat>)
    requires InSequence(accepted, session, sequence) && Waits(latest, accepted, delivered, marks)
    requires !(s.session == session && session != "" && s.sequence <= sequence)
    ensures InSequence(accepted + [s], s.session, s.sequence)
    ensures Waits(Some(s), accepted + [s], delivered, marks)
  {
    if marks != [] {
      assert marks[|marks| - 1] < |accepted|;
    }
  }

  lemma DeliverOne(latest: Option<Snapshot>, accepted: seq<Snapshot>, delivered: seq<Snapshot>, marks: seq<nat>)
    requires Waits(latest, accepted, delivered, marks) && latest.Some?
    ensures Waits(None, accepted, delivered + [latest.value], marks + [|accepted| - 1])
  {
    var more := marks + [|accepted| - 1];
    forall i, j | 0 <= i < j < |more|
      ensures more[i] < more[j]
    {
      if j == |marks| {
        assert i == |marks| - 1 || more[i] < more[|marks| - 1];
      }
    }
  }

  /** How many snapshots were overwritten before delivery when `taken` more were accepted. */
  function Overwritten(waiting: bool, taken: nat): nat {
    if waiting then taken else if taken == 0 then 0 else taken - 1
  }

  /** What waits for delivery, and how many were overwritten. */
  datatype Waiting = Waiting(latest: Option<Snapshot>, overwritten: nat)

  /** Accepting from `was` to `now`: the last one waits, all others waiting were overwritten. */
  predicate AcceptedSince(was: seq<Snapshot>, now: seq<Snapshot>, before: Waiting, after: Waiting) {
    && was <= now
    && after.latest == (if |now| == |was| then before.latest else Some(now[|now| - 1]))
    && after.overwritten == before.overwritten + Overwritten(before.latest.Some?, |now| - |was|)
  }

  lemma AcceptedOn(a: seq<Snapshot>, b: seq<Snapshot>, c: seq<Snapshot>, x: Waiting, y: Waiting, z: Waiting)
    requires AcceptedSince(a, b, x, y) && AcceptedSince(b, c, y, z)
    ensures AcceptedSince(a, c, x, z)
  {
  }

  class Client {
    const codec: Codec
    var pendingInput: string
    var latest: Option<Snapshot>
    var stopped: bool
    var connected: bool
    var deliveryScheduled: bool
    var producerSession: string
    var sequence: nat
    var protocolErrors: nat
    var reconnects: nat
    var coalescedFrames: nat
    /** What the snapshot handler has been called with. */
    var delivered: seq<Snapshot>
    ghost var accepted: seq<Snapshot>
    ghost var marks: seq<nat>

    ghost function Buffer(): Buffered
      reads `producerSession, `sequence, `accepted, `pendingInput
    {
      Buffered(Receiver(producerSession, sequence, accepted, false), pendingInput)
    }

    /** Over all connections: accepted snapshots rise, what was delivered was accepted in that
        order, and a snapshot waiting for delivery is the last one accepted and not yet delivered. */
    ghost predicate Valid()
      reads `accepted, `producerSession, `sequence, `latest, `delivered, `marks, `deliveryScheduled,
            `connected, `pendingInput
    {
      && InSequence(accepted, producerSession, sequence)
      && Waits(latest, accepted, delivered, marks)
      && (latest.Some? || deliveryScheduled ==> connected)
      && (!connected ==> pendingInput == "")
    }

    function ToDeliver(): Waiting
      reads `latest, `coalescedFrames
    {
      Waiting(latest, coalescedFrames)
    }

    constructor (codec: Codec)
      ensures Valid() && this.codec == codec && accepted == [] && delivered == [] && !connected
    {
      this.codec := codec;
      pendingInput, latest, stopped, connected, deliveryScheduled := "", None, false, false, false;
      producerSession, sequence, protocolErrors, reconnects, coalescedFrames := "", 0, 0, 0, 0;
      delivered, accepted, marks := [], [], [];
    }

    method Connected()
      requires Valid() && !connected && !stopped
      modifies `connected
      ensures Valid() && connected
    {
      connected := true;
    }

    method ScheduleDelivery()
      requires Valid()
      modifies `deliveryScheduled
      ensures Valid()
      ensures deliveryScheduled == (old(deliveryScheduled) || (latest.Some? && !stopped && connected))
    {
      if latest.None? || deliveryScheduled || stopped || !connected {
        return;
      }
      deliveryScheduled := true;
    }

    method DeliverLatest()
      requires Valid()
      modifies `latest, `delivered, `marks
      ensures Valid() && latest.None?
      ensures delivered == old(delivered) + if old(latest).Some? then [old(latest).value] else []
    {
      if latest.None? {
        return;
      }
      DeliverOne(latest, accepted, delivered, marks);
      delivered := delivered + [latest.value];
      marks := marks + [|accepted| - 1];
      latest := None;
    }

    /** The coalescing timer has fired without being cancelled. */
    method TimerFired()
      requires Valid() && deliveryScheduled
      modifies `deliveryScheduled, `latest, `delivered, `marks
      ensures Valid()
      ensures stopped ==> delivered == old(delivered)
      ensures !stopped ==> !deliveryScheduled && latest.None?
      ensures !stopped ==> delivered == old(delivered) + if old(latest).Some? then [old(latest).value] else []
    {
      if stopped || !connected {
        return;
      }
      deliveryScheduled := false;
      DeliverLatest();
    }

    method FlushLatest()
      requires Valid()
      modifies `deliveryScheduled, `latest, `delivered, `marks
      ensures Valid() && !deliveryScheduled && latest.None?
      ensures delivered == old(delivered) + if old(latest).Some? then [old(latest).value] else []
    {
      deliveryScheduled := false;
      DeliverLatest();
    }

    method ScheduleReconnect()
      requires Valid() && latest.None? && !deliveryScheduled && pendingInput == ""
      modifies `connected, `reconnects
      ensures Valid() && (stopped ==> connected == old(connected) && reconnects == old(reconnects))
      ensures !stopped ==> !connected && reconnects == old(reconnects) + 1
    {
      if stopped {
        return;
      }
      connected := false;
      reconnects := reconnects + 1;
    }

    /** Whatever was buffered for this connection is forgotten; what was accepted stays known. */
    method DisconnectAndReconnect()
      requires Valid()
      modifies `deliveryScheduled, `pendingInput, `latest, `connected, `reconnects
      ensures Valid() && !connected && latest.None? && pendingInput == "" && !deliveryScheduled
      ensures reconnects == old(reconnects) + if stopped then 0 else 1
    {
      deliveryScheduled := false;
      pendingInput := "";
      latest := None;
      connected := false;
      ScheduleReconnect();
    }

    /** Take one complete line, or report that the stream cannot be trusted. */
    method TakeLine(line: string) returns (ok: bool)
      requires Valid() && connected && |line| <= MAX_FRAME_BYTES
      modifies `producerSession, `sequence, `coalescedFrames, `latest, `accepted
      ensures Valid()
      ensures var r := LatestValueFrames.TakeLine(codec, old(Buffer()).receiver, line);
              && ok == !r.failed
              && (if ok then Buffer() == old(Buffer()).(receiver := r) else unchanged(this))
      ensures ok ==> |accepted| == |old(accepted)| + 1 && latest == Some(accepted[|accepted| - 1])
                     && coalescedFrames == old(coalescedFrames) + if old(latest).Some? then 1 else 0
    {
      var decoded := codec.decode(line);
      if decoded.None? {
        return false;
      }
      var snapshot := decoded.value;
      if snapshot.session == producerSession && producerSession != "" && snapshot.sequence <= sequence {
        return false;
      }
      AcceptOne(accepted, producerSession, sequence, snapshot, latest, delivered, marks);
      producerSession := snapshot.session;
      sequence := snapshot.sequence;
      if latest.Some? {
        coalescedFrames := coalescedFrames + 1;
      }
      latest := Some(snapshot);
      accepted := accepted + [snapshot];
      return true;
    }

    method ProtocolError()
      requires Valid()
      modifies `protocolErrors, `deliveryScheduled, `pendingInput, `latest, `connected, `reconnects
      ensures Valid() && !connected && latest.None? && pendingInput == "" && !deliveryScheduled
      ensures protocolErrors == old(protocolErrors) + 1
      ensures reconnects == old(reconnects) + if stopped then 0 else 1
    {
      protocolErrors := protocolErrors + 1;
      DisconnectAndReconnect();
    }

    /** The first complete line of the buffer, taken out of it and accepted or refused. */
    method TakeFirst(newline: nat, ghost b: Buffered, ghost was: seq<Snapshot>,
                     ghost waiting: Waiting) returns (ok: bool)
      requires Valid() && connected && b == Buffer() && was == accepted && waiting == ToDeliver()
      requires newline == FindNewline(pendingInput) < |pendingInput|
      modifies `producerSession, `sequence, `coalescedFrames, `latest, `accepted, `pendingInput
      ensures Valid() && Drained(NextLine(codec, b), ok) && AcceptedSince(was, accepted, waiting, ToDeliver())
    {
      var line := pendingInput[..newline];
      if newline > MAX_FRAME_BYTES {
        return false;
      }
      pendingInput := pendingInput[newline + 1..];
      ok := TakeLine(line);
    }

    /** The complete lines of the buffer, up to the first error. */
    method DrainLines(ghost start: Buffered, ghost was: seq<Snapshot>, ghost waiting: Waiting) returns (ok: bool)
      requires Valid() && connected && start == Buffer() && was == accepted && waiting == ToDeliver()
      modifies `producerSession, `sequence, `coalescedFrames, `latest, `accepted, `pendingInput
      ensures Valid() && Drained(Drain(codec, start), ok) && AcceptedSince(was, accepted, waiting, ToDeliver())
    {
      var newline := FindNewline(pendingInput);
      while newline < |pendingInput|
        invariant Valid() && newline == FindNewline(pendingInput)
        invariant Drain(codec, Buffer()) == Drain(codec, start)
        invariant AcceptedSince(was, accepted, waiting, ToDeliver())
        decreases |pendingInput|
      {
        ghost var b, mid, held := Buffer(), accepted, ToDeliver();
        ok := TakeFirst(newline, b, mid, held);
        AcceptedOn(was, mid, accepted, waiting, held, ToDeliver());
        assert Drain(codec, b) == Drain(codec, NextLine(codec, b));
        if !ok {
          return false;
        }
        newline := FindNewline(pendingInput);
      }
      return true;
    }

    /** What draining to `d` leaves. */
    ghost predicate Drained(d: Buffered, ok: bool)
      reads `producerSession, `sequence, `accepted, `pendingInput
    {
      ok == !d.receiver.failed && accepted == d.receiver.accepted && (ok ==> Buffer() == d)
    }

    /** The end of a read: give up on an error or an overlong line, else schedule the delivery. */
    method FinishRead(ok: bool, ghost d: Buffered)
      requires Valid() && connected && Drained(d, ok)
      modifies `protocolErrors, `deliveryScheduled, `pendingInput, `latest, `connected, `reconnects
      ensures Valid()
      ensures ReadEnded(Limit(d), old(protocolErrors), old(reconnects))
      ensures connected ==> ToDeliver() == old(ToDeliver())
    {
      if ok && |pendingInput| <= MAX_FRAME_BYTES {
        ScheduleDelivery();
      } else {
        ProtocolError();
      }
    }

    /** The connection was given up over one protocol error. */
    predicate Gone(errors: nat, attempts: nat)
      reads this
    {
      && !connected && latest.None? && !deliveryScheduled && protocolErrors == errors + 1
      && reconnects == attempts + if stopped then 0 else 1
    }

    /** The connection goes on with what the read left, the newest snapshot scheduled for delivery;
        or it was given up. */
    ghost predicate ReadEnded(b: Buffered, errors: nat, attempts: nat)
      reads this
    {
      if b.receiver.failed then Gone(errors, attempts)
      else
        && connected && Buffer() == b && protocolErrors == errors && reconnects == attempts
        && (latest.Some? && !stopped ==> deliveryScheduled)
    }

    /** One read: complete lines are accepted in order, the last one waits for delivery, and the
        first error ends the connection. */
    method ConsumeBytes(chunk: string)
      requires Valid() && connected
      modifies this
      ensures Valid() && stopped == old(stopped) && delivered == old(delivered)
      ensures accepted == Consume(codec, old(Buffer()), chunk).receiver.accepted
      ensures ReadEnded(Consume(codec, old(Buffer()), chunk), old(protocolErrors), old(reconnects))
      ensures connected ==> AcceptedSince(old(accepted), accepted, old(ToDeliver()), ToDeliver())
    {
      ghost var was, waiting := accepted, ToDeliver();
      ghost var start := Buffer().(pending := pendingInput + chunk);
      ConsumeIsLimited(codec, Buffer(), chunk, start);
      pendingInput := pendingInput + chunk;
      TakeLines(start, Limit(Drain(codec, start)), was, waiting);
    }

    /** What a read does with the lines it has completed. */
    method TakeLines(ghost start: Buffered, ghost end: Buffered, ghost was: seq<Snapshot>, ghost waiting: Waiting)
      requires Valid() && connected && start == Buffer() && was == accepted && waiting == ToDeliver()
      requires end == Limit(Drain(codec, start))
      modifies this
      ensures Valid() && stopped == old(stopped) && delivered == old(delivered) && accepted == end.receiver.accepted
      ensures ReadEnded(end, old(protocolErrors), old(reconnects))
      ensures connected ==> AcceptedSince(was, accepted, waiting, ToDeliver())
    {
      var ok := DrainLines(start, was, waiting);
      FinishRead(ok, Drain(codec, start));
    }

    /** A read has completed with some bytes and possibly an error: nothing accepted is undone,
        what was waiting is flushed before an error closes the connection. */
    method ReadCompleted(chunk: string, error: bool)
      requires Valid() && connected
      modifies this
      ensures Valid() && old(delivered) <= delivered && old(accepted) <= accepted
      ensures error ==> !connected && latest.None?
      ensures accepted == if chunk == "" then old(accepted) else Consume(codec, old(Buffer()), chunk).receiver.accepted
    {
      if chunk != "" {
        ConsumeBytes(chunk);
      }
      if error {
        FlushLatest();
        if !connected {
          return;
        }
        DisconnectAndReconnect();
      }
    }
  }
}
