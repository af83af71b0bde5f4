/** The connection registry of app/services/socket_service_impl.py and
    app/services/socket_service.py (the two `ConnectionManager` classes are the same code;
    only the first has `forward_image`), and the sending side of every WebSocket. */
module Connections {
  import opened Common
  import opened Messages

  /** The message `list.remove` raises when the element is missing. */
  const RemoveMissing: string := "list.remove(x): x not in list"

  /** Every frame sent so far, in order, and the connections whose `send_text` raises,
      each with the message of the exception it raises. A connection's outbox is its
      projection of `sent` (see Outbox). */
  class Wire {
    var sent: seq<Delivery>
    const broken: map<Conn, string>

    constructor (broken: map<Conn, string>)
      ensures sent == [] && this.broken == broken
    {
      sent := [];
      this.broken := broken;
    }

    /** websocket.send_text / send_json: appends the frame to the connection's outbox, or
        raises and sends nothing. */
    method SendText(to: Conn, frame: Frame) returns (r: Outcome<()>)
      modifies this`sent
      ensures r == (if to in broken then Fail(broken[to]) else Ok(()))
      ensures sent == old(sent) + (if to in broken then [] else [Delivery(to, frame)])
    {
      if to in broken {
        return Fail(broken[to]);
      }
      sent := sent + [Delivery(to, frame)];
      return Ok(());
    }
  }

  /** The frames connection `c` has received, oldest first. */
  function Outbox(log: seq<Delivery>, c: Conn): seq<Frame>
  {
    if log == [] then []
    else Outbox(log[..|log| - 1], c) + (if log[|log| - 1].to == c then [log[|log| - 1].frame] else [])
  }

  lemma {:induction false} OutboxConcat(a: seq<Delivery>, b: seq<Delivery>, c: Conn)
    ensures Outbox(a + b, c) == Outbox(a, c) + Outbox(b, c)
  {
    if b == [] {
      assert a + b == a;
    } else {
      OutboxConcat(a, b[..|b| - 1], c);
      assert (a + b)[..|a + b| - 1] == a + b[..|b| - 1];
      assert (a + b)[|a + b| - 1] == b[|b| - 1];
    }
  }

  /** One frame to each connection of the list, in list order. */
  function Deliveries(conns: seq<Conn>, frame: Frame): (d: seq<Delivery>)
    ensures |d| == |conns|
  {
    seq(|conns|, i requires 0 <= i < |conns| => Delivery(conns[i], frame))
  }

  function Repeat(frame: Frame, n: nat): (r: seq<Frame>)
    ensures |r| == n && forall i :: 0 <= i < n ==> r[i] == frame
  {
    seq(n, _ => frame)
  }

  /** A fan-out gives each connection the frame once per time it is listed, and nothing to
      any connection that is not listed. */
  lemma {:induction false} FanoutOutbox(conns: seq<Conn>, frame: Frame, c: Conn)
    ensures Outbox(Deliveries(conns, frame), c) == Repeat(frame, multiset(conns)[c])
  {
    if conns != [] {
      var init := conns[..|conns| - 1];
      FanoutOutbox(init, frame, c);
      assert Deliveries(conns, frame)[..|conns| - 1] == Deliveries(init, frame);
      assert conns == init + [conns[|conns| - 1]];
    }
  }

  /** The position of the first connection whose send raises, or the length of the list. */
  function FirstBroken(conns: seq<Conn>, broken: map<Conn, string>): (k: nat)
    ensures k <= |conns|
    ensures k < |conns| ==> conns[k] in broken
  {
    if conns == [] then 0
    else if conns[0] in broken then 0
    else 1 + FirstBroken(conns[1..], broken)
  }

  /** Every connection before the first broken one takes its send. */
  lemma {:induction false} FirstBrokenClear(conns: seq<Conn>, broken: map<Conn, string>, j: nat)
    requires j < FirstBroken(conns, broken)
    ensures conns[j] !in broken
  {
    if j > 0 {
      FirstBrokenClear(conns[1..], broken, j - 1);
    }
  }

  /** A position is the first broken one when every connection before it takes its send and
      it is broken or the end of the list. */
  lemma {:induction false} FirstBrokenAt(conns: seq<Conn>, broken: map<Conn, string>, k: nat)
    requires k <= |conns| && (k < |conns| ==> conns[k] in broken)
    requires forall j :: 0 <= j < k ==> conns[j] !in broken
    ensures FirstBroken(conns, broken) == k
  {
    if k > 0 {
      FirstBrokenAt(conns[1..], broken, k - 1);
    }
  }

  /** Frames sent one after another to one connection: all of them, or none when its sends
      raise (the first send raises and ends the sequence). */
  function SentTo(ws: Conn, frames: seq<Frame>, broken: map<Conn, string>): seq<Delivery>
  {
    if ws in broken then [] else seq(|frames|, i requires 0 <= i < |frames| => Delivery(ws, frames[i]))
  }

  /** What the addressed connection receives from SentTo, and that nobody else receives anything. */
  lemma {:induction false} SentToOutbox(ws: Conn, frames: seq<Frame>, broken: map<Conn, string>, c: Conn)
    ensures Outbox(SentTo(ws, frames, broken), c) == if c == ws && ws !in broken then frames else []
  {
    if ws !in broken && |frames| > 0 {
      var front, last := frames[..|frames| - 1], frames[|frames| - 1];
      assert frames == front + [last];
      SentToSnoc(ws, front, last, broken);
      SentToOutbox(ws, front, broken, c);
      var log := SentTo(ws, front, broken) + [Delivery(ws, last)];
      assert log[..|log| - 1] == SentTo(ws, front, broken);
    } else if ws !in broken {
      assert SentTo(ws, frames, broken) == [];
    }
  }

  /** One more frame to a connection whose sends go through is one more delivery. */
  lemma SentToSnoc(ws: Conn, front: seq<Frame>, last: Frame, broken: map<Conn, string>)
    requires ws !in broken
    ensures SentTo(ws, front + [last], broken) == SentTo(ws, front, broken) + [Delivery(ws, last)]
  {
  }

  /** The connections registered for a canvas, in registration order. */
  function ConnectionsOf(reg: map<string, seq<Conn>>, canvasId: string): seq<Conn>
  {
    if canvasId in reg then reg[canvasId] else []
  }

  /** The registry invariant: a canvas id is present only while it has a connection. */
  predicate NoEmptyLists(reg: map<string, seq<Conn>>) {
    forall k :: k in reg ==> reg[k] != []
  }

  /** The registry after `connect`: the connection appended to the canvas's list. */
  function Connected(reg: map<string, seq<Conn>>, ws: Conn, canvasId: string): map<string, seq<Conn>>
  {
    reg[canvasId := ConnectionsOf(reg, canvasId) + [ws]]
  }

  /** The list without the first occurrence of `x`. */
  function RemoveFirst(s: seq<Conn>, x: Conn): (r: seq<Conn>)
    requires x in s
    ensures |r| == |s| - 1
    ensures multiset(r) == multiset(s) - multiset{x}
  {
    if s[0] == x then
      assert s == [s[0]] + s[1..];
      s[1..]
    else
      assert s == [s[0]] + s[1..];
      [s[0]] + RemoveFirst(s[1..], x)
  }

  /** The first occurrence is the one removed: the part before it is kept in place. */
  lemma {:induction false} RemoveFirstAt(s: seq<Conn>, x: Conn, i: nat)
    requires i < |s| && s[i] == x && forall j :: 0 <= j < i ==> s[j] != x
    ensures RemoveFirst(s, x) == s[..i] + s[i + 1..]
  {
    if i > 0 {
      RemoveFirstAt(s[1..], x, i - 1);
      assert s[..i] == [s[0]] + s[1..][..i - 1];
    }
  }

  /** The registry after `disconnect`: unchanged for an unknown canvas; the first occurrence
      removed and an emptied list dropped otherwise; ValueError when the canvas is known
      but the connection is not in its list. */
  function Disconnected(reg: map<string, seq<Conn>>, ws: Conn, canvasId: string): Outcome<map<string, seq<Conn>>>
  {
    if canvasId !in reg then Ok(reg)
    else if ws !in reg[canvasId] then Fail(RemoveMissing)
    else
      var rest := RemoveFirst(reg[canvasId], ws);
      Ok(if rest == [] then reg - {canvasId} else reg[canvasId := rest])
  }

  /** Connecting keeps every listed canvas non-empty and leaves other canvases alone. */
  lemma ConnectedInvariant(reg: map<string, seq<Conn>>, ws: Conn, canvasId: string)
    requires NoEmptyLists(reg)
    ensures NoEmptyLists(Connected(reg, ws, canvasId))
    ensures forall k :: k != canvasId ==>
              ConnectionsOf(Connected(reg, ws, canvasId), k) == ConnectionsOf(reg, k)
  {
  }

  /** Disconnecting keeps every listed canvas non-empty and leaves other canvases alone. */
  lemma DisconnectedInvariant(reg: map<string, seq<Conn>>, ws: Conn, canvasId: string)
    requires NoEmptyLists(reg) && Disconnected(reg, ws, canvasId).Ok?
    ensures NoEmptyLists(Disconnected(reg, ws, canvasId).value)
    ensures forall k :: k != canvasId ==>
              ConnectionsOf(Disconnected(reg, ws, canvasId).value, k) == ConnectionsOf(reg, k)
  {
    var after := Disconnected(reg, ws, canvasId).value;
    forall k | k in after ensures after[k] != [] {
      if k != canvasId {
        assert k in reg && after[k] == reg[k];
      }
    }
  }

  /** Disconnecting removes exactly one registration of the connection; it raises exactly
      when the canvas is known and the connection is not registered under it. */
  lemma {:induction false} DisconnectRemovesOne(reg: map<string, seq<Conn>>, ws: Conn, canvasId: string)
    ensures Disconnected(reg, ws, canvasId).Fail? <==> canvasId in reg && ws !in reg[canvasId]
    ensures Disconnected(reg, ws, canvasId).Ok? && canvasId in reg ==>
              multiset(ConnectionsOf(Disconnected(reg, ws, canvasId).value, canvasId))
                == multiset(reg[canvasId]) - multiset{ws}
  {
    if canvasId in reg && ws in reg[canvasId] {
      var rest := RemoveFirst(reg[canvasId], ws);
      if rest == [] {
        assert multiset(rest) == multiset{};
      }
    }
  }

  /** Removing the first occurrence of an element appended to a list without it gives the list back. */
  lemma RemoveFirstAppended(before: seq<Conn>, ws: Conn)
    requires ws !in before
    ensures RemoveFirst(before + [ws], ws) == before
  {
    var after := before + [ws];
    RemoveFirstAt(after, ws, |before|);
    assert after[..|before|] + after[|before| + 1..] == before;
  }

  /** Disconnect of a registered connection: the canvas's list without its first occurrence. */
  lemma DisconnectedFound(reg: map<string, seq<Conn>>, ws: Conn, canvasId: string, rest: seq<Conn>)
    requires canvasId in reg && ws in reg[canvasId] && RemoveFirst(reg[canvasId], ws) == rest
    ensures Disconnected(reg, ws, canvasId) == Ok(if rest == [] then reg - {canvasId} else reg[canvasId := rest])
  {
  }

  /** A connection that was not registered for a canvas, connected and then disconnected,
      leaves the registry exactly as it was. */
  lemma ConnectThenDisconnect(reg: map<string, seq<Conn>>, ws: Conn, canvasId: string)
    requires NoEmptyLists(reg) && ws !in ConnectionsOf(reg, canvasId)
    ensures Disconnected(Connected(reg, ws, canvasId), ws, canvasId) == Ok(reg)
  {
    var before := ConnectionsOf(reg, canvasId);
    RemoveFirstAppended(before, ws);
    DisconnectedFound(Connected(reg, ws, canvasId), ws, canvasId, before);
    ConnectUndone(reg, ws, canvasId);
  }

  /** Putting back the list a canvas had before a connect, or dropping the canvas when it had
      none, restores the registry. */
  lemma ConnectUndone(reg: map<string, seq<Conn>>, ws: Conn, canvasId: string)
    requires NoEmptyLists(reg)
    ensures var before := ConnectionsOf(reg, canvasId);
            var reg' := Connected(reg, ws, canvasId);
            (if before == [] then reg' - {canvasId} else reg'[canvasId := before]) == reg
  {
    var reg' := Connected(reg, ws, canvasId);
    if canvasId in reg {
      assert reg'[canvasId := reg[canvasId]] == reg;
    } else {
      assert reg' - {canvasId} == reg;
    }
  }

  /** Disconnect is not idempotent: a connection registered once, on a canvas that keeps
      another connection, makes a second disconnect raise. */
  lemma DisconnectTwiceRaises(reg: map<string, seq<Conn>>, ws: Conn, canvasId: string)
    requires canvasId in reg && multiset(reg[canvasId])[ws] == 1 && |reg[canvasId]| >= 2
    ensures Disconnected(reg, ws, canvasId).Ok?
    ensures Disconnected(Disconnected(reg, ws, canvasId).value, ws, canvasId) == Fail(RemoveMissing)
  {
    var rest := RemoveFirst(reg[canvasId], ws);
    assert multiset(rest)[ws] == 0;
    assert ws !in rest;
  }

  /** The registry of live WebSocket connections per canvas id. */
  class ConnectionManager {
    var activeConnections: map<string, seq<Conn>>

    ghost predicate Valid()
      reads this
    {
      NoEmptyLists(activeConnections)
    }

    constructor ()
      ensures Valid() && activeConnections == map[]
    {
      activeConnections := map[];
    }

    /** connect: appends the (accepted) connection to the canvas's list, creating the list
        when the canvas is new. Duplicates are kept. */
    method Connect(ws: Conn, canvasId: string)
      requires Valid()
      modifies this
      ensures Valid()
      ensures activeConnections == Connected(old(activeConnections), ws, canvasId)
    {
      if canvasId !in activeConnections {
        activeConnections := activeConnections[canvasId := []];
      }
      activeConnections := activeConnections[canvasId := activeConnections[canvasId] + [ws]];
    }

    /** disconnect: removes the first registration of the connection and drops the canvas
        when its list empties; raises, changing nothing, when the canvas is known but the
        connection is not registered under it. */
    method Disconnect(ws: Conn, canvasId: string) returns (r: Outcome<()>)
      requires Valid()
      modifies this
      ensures Valid()
      ensures var d := Disconnected(old(activeConnections), ws, canvasId);
              && activeConnections == (if d.Ok? then d.value else old(activeConnections))
              && r == (if d.Ok? then Ok(()) else Fail(d.error))
    {
      if canvasId in activeConnections {
        var conns := activeConnections[canvasId];
        if ws !in conns {
          return Fail(RemoveMissing);
        }
        var i := 0;
        while conns[i] != ws
          decreases |conns| - i
          invariant 0 <= i < |conns| && ws in conns[i..]
          invariant forall j :: 0 <= j < i ==> conns[j] != ws
        {
          i := i + 1;
        }
        var rest := conns[..i] + conns[i + 1..];
        RemoveFirstAt(conns, ws, i);
        DisconnectedFound(activeConnections, ws, canvasId, rest);
        DisconnectedInvariant(activeConnections, ws, canvasId);
        ghost var before := activeConnections;
        activeConnections := activeConnections[canvasId := rest];
        if rest == [] {
          activeConnections := activeConnections - {canvasId};
          assert activeConnections == before - {canvasId};
        }
      }
      return Ok(());
    }

    /** broadcast_to_canvas: sends the frame to the canvas's connections in registration
        order; nothing for an unknown canvas. The first send that raises ends the loop, so
        the connections after it receive nothing, and the exception propagates. */
    method BroadcastToCanvas(frame: Frame, canvasId: string, wire: Wire) returns (r: Outcome<()>)
      modifies wire`sent
      ensures var conns := ConnectionsOf(activeConnections, canvasId);
              var k := FirstBroken(conns, wire.broken);
              && wire.sent == old(wire.sent) + Deliveries(conns[..k], frame)
              && r == (if k < |conns| then Fail(wire.broken[conns[k]]) else Ok(()))
    {
      r := Ok(());
      if canvasId in activeConnections {
        var conns := activeConnections[canvasId];
        var i := 0;
        while i < |conns|
          invariant 0 <= i <= |conns| && r == Ok(())
          invariant forall j :: 0 <= j < i ==> conns[j] !in wire.broken
          invariant wire.sent == old(wire.sent) + Deliveries(conns[..i], frame)
        {
          r := wire.SendText(conns[i], frame);
          if r.Fail? {
            FirstBrokenAt(conns, wire.broken, i);
            return;
          }
          assert Deliveries(conns[..i + 1], frame) == Deliveries(conns[..i], frame) + [Delivery(conns[i], frame)];
          i := i + 1;
        }
        assert conns[..i] == conns;
        FirstBrokenAt(conns, wire.broken, |conns|);
      } else {
        assert Deliveries([], frame) == [];
      }
    }

    /** forward_image: broadcasts {"type":"image","image_data":d} to the canvas; nothing for
        an unknown canvas. */
    method ForwardImage(canvasId: string, imageData: string, wire: Wire) returns (r: Outcome<()>)
      modifies wire`sent
      ensures var conns := ConnectionsOf(activeConnections, canvasId);
              var k := FirstBroken(conns, wire.broken);
              && wire.sent == old(wire.sent) + Deliveries(conns[..k], ImageForward(imageData))
              && r == (if k < |conns| then Fail(wire.broken[conns[k]]) else Ok(()))
    {
      r := Ok(());
      if canvasId in activeConnections {
        r := BroadcastToCanvas(ImageForward(imageData), canvasId, wire);
      } else {
        assert Deliveries([], ImageForward(imageData)) == [];
      }
    }
  }
}
