/** The publishing side: one frame being written per client, and at most one waiting. */
module LatestValueServer {
  import opened Options

  /** What a connection still has to write. A frame waits only behind an active one. */
  datatype Outbox<T> = Outbox(active: Option<T>, waiting: Option<T>) {
    predicate Ordered() {
      active.None? ==> waiting.None?
    }

    /** A newer frame replaces a waiting one. */
    function Send(frame: T): Outbox<T> {
      if active.Some? then Outbox(active, Some(frame)) else Outbox(Some(frame), None)
    }

    predicate Coalesces() {
      active.Some? && waiting.Some?
    }

    function WriteDone(): Outbox<T> {
      Outbox(waiting, None)
    }
  }

  function CountCoalescing(boxes: seq<Outbox<string>>): nat {
    if boxes == [] then 0
    else CountCoalescing(boxes[..|boxes| - 1]) + if boxes[|boxes| - 1].Coalesces() then 1 else 0
  }

  class Client {
    var writing: bool
    var activeFrame: string
    var pendingFrame: Option<string>

    constructor ()
      ensures Box() == Outbox(None, None) && Valid()
    {
      writing, activeFrame, pendingFrame := false, "", None;
    }

    ghost function Box(): Outbox<string>
      reads this
    {
      Outbox(if writing then Some(activeFrame) else None, pendingFrame)
    }

    ghost predicate Valid()
      reads this
    {
      Box().Ordered()
    }

    /** Returns whether a waiting frame was overwritten. */
    method Send(frame: string) returns (coalesced: bool)
      modifies this
      requires Valid()
      ensures Valid() && Box() == old(Box()).Send(frame) && coalesced == old(Box()).Coalesces()
    {
      if writing {
        coalesced := pendingFrame.Some?;
        pendingFrame := Some(frame);
        return;
      }
      coalesced := false;
      writing := true;
      activeFrame := frame;
      assert pendingFrame.None?;
    }

    /** The write of the active frame has completed. */
    method WriteCompleted()
      requires Valid() && writing
      modifies this
      ensures Valid() && Box() == old(Box()).WriteDone()
    {
      if pendingFrame.Some? {
        activeFrame := pendingFrame.value;
        pendingFrame := None;
      } else {
        writing := false;
        activeFrame := "";
      }
    }
  }

  class Server {
    var clients: seq<Client>
    var latestFrame: string
    var coalescedUpdates: nat

    ghost predicate Valid()
      reads this, clients
    {
      && (forall i :: 0 <= i < |clients| ==> clients[i].Valid())
      && (forall i, j :: 0 <= i < j < |clients| ==> clients[i] != clients[j])
    }

    ghost function Boxes(): seq<Outbox<string>>
      reads this, clients
    {
      seq(|clients|, i requires 0 <= i < |clients| reads this, clients => clients[i].Box())
    }

    constructor ()
      ensures Valid() && clients == [] && latestFrame == "" && coalescedUpdates == 0
    {
      clients, latestFrame, coalescedUpdates := [], "", 0;
    }

    /** Every client is sent the frame once, and every overwritten frame is counted once. */
    method Publish(frame: string)
      requires Valid()
      modifies this, clients
      ensures Valid() && clients == old(clients) && latestFrame == frame
      ensures forall i :: 0 <= i < |clients| ==> clients[i].Box() == old(Boxes())[i].Send(frame)
      ensures coalescedUpdates == old(coalescedUpdates) + CountCoalescing(old(Boxes()))
    {
      ghost var boxes := Boxes();
      latestFrame := frame;
      for k := 0 to |clients|
        invariant Valid() && clients == old(clients) && latestFrame == frame
        invariant forall i :: 0 <= i < k ==> clients[i].Box() == boxes[i].Send(frame)
        invariant forall i :: k <= i < |clients| ==> clients[i].Box() == boxes[i]
        invariant coalescedUpdates == old(coalescedUpdates) + CountCoalescing(boxes[..k])
      {
        var coalesced := clients[k].Send(frame);
        if coalesced {
          coalescedUpdates := coalescedUpdates + 1;
        }
        assert boxes[..k + 1][..k] == boxes[..k];
      }
      assert boxes[..|clients|] == boxes;
    }

    /** A new client is first sent the latest frame, if there is one. */
    method Accept() returns (client: Client)
      requires Valid()
      modifies this
      ensures Valid() && fresh(client) && clients == old(clients) + [client]
      ensures client.Box() == if latestFrame == "" then Outbox(None, None) else Outbox(Some(latestFrame), None)
      ensures latestFrame == old(latestFrame) && coalescedUpdates == old(coalescedUpdates)
    {
      client := new Client();
      clients := clients + [client];
      if latestFrame != "" {
        var _ := client.Send(latestFrame);
      }
    }

    /** A client whose write failed is dropped; the others keep their order. */
    method Remove(client: Client)
      requires Valid()
      modifies this
      ensures Valid() && client !in clients
      ensures client in old(clients) ==>
                exists i :: 0 <= i < |old(clients)| && old(clients)[i] == client
                            && clients == old(clients)[..i] + old(clients)[i + 1..]
      ensures client !in old(clients) ==> clients == old(clients)
      ensures latestFrame == old(latestFrame) && coalescedUpdates == old(coalescedUpdates)
    {
      var i := 0;
      while i < |clients| && clients[i] != client
        invariant i <= |clients| && client !in clients[..i]
      {
        i := i + 1;
      }
      if i < |clients| {
        assert clients == clients[..i] + [client] + clients[i + 1..];
        assert client !in clients[i + 1..];
        clients := clients[..i] + clients[i + 1..];
      }
    }
  }
}
