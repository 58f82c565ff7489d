/** What the Socket.IO server is asked to send. Every `emit` becomes an
    entry appended to an outbox; an emit to a room whose transport raises
    (the `failing` rooms) is caught by the caller and delivers nothing. */
module Sockets {

  /** `socketio.emit(event, message, room=room)`. */
  datatype Emission<M> = Emission(event: string, room: string, message: M)

  /** The outbox after an emit of `message` as `event` to `room`. */
  function Emit<M>(outbox: seq<Emission<M>>, failing: set<string>, event: string, room: string, message: M)
    : (r: seq<Emission<M>>)
    ensures room in failing ==> r == outbox
    ensures room !in failing ==> r == outbox + [Emission(event, room, message)]
  {
    if room in failing then outbox else outbox + [Emission(event, room, message)]
  }

  /** The rooms of a run of emissions. */
  function Rooms<M>(sent: seq<Emission<M>>): (r: set<string>)
    ensures forall i :: 0 <= i < |sent| ==> sent[i].room in r
    ensures forall x :: x in r ==> exists i :: 0 <= i < |sent| && sent[i].room == x
  {
    if |sent| == 0 then {} else Rooms(sent[..|sent| - 1]) + {sent[|sent| - 1].room}
  }

  /** `sent` delivers `message` as `event` exactly once to each room of
      `rooms` and to no other room, in some order. */
  ghost predicate OncePerRoom<M>(sent: seq<Emission<M>>, rooms: set<string>, event: string, message: M)
  {
    && Rooms(sent) == rooms
    && (forall i :: 0 <= i < |sent| ==> sent[i] == Emission(event, sent[i].room, message))
    && (forall i, j :: 0 <= i < j < |sent| ==> sent[i].room != sent[j].room)
  }

  /** Sending to one more room keeps the once-per-room shape. */
  lemma OncePerRoomStep<M>(sent: seq<Emission<M>>, rooms: set<string>, event: string, message: M, room: string)
    requires OncePerRoom(sent, rooms, event, message) && room !in rooms
    ensures OncePerRoom(sent + [Emission(event, room, message)], rooms + {room}, event, message)
  {
    var sent' := sent + [Emission(event, room, message)];
    assert sent'[..|sent'| - 1] == sent;
  }

  /** A once-per-room run has one emission per room. */
  lemma {:induction false} OncePerRoomCount<M>(sent: seq<Emission<M>>, rooms: set<string>, event: string, message: M)
    requires OncePerRoom(sent, rooms, event, message)
    ensures |sent| == |rooms|
  {
    if |sent| > 0 {
      var init := sent[..|sent| - 1];
      var last := sent[|sent| - 1].room;
      assert last !in Rooms(init);
      assert OncePerRoom(init, Rooms(init), event, message);
      OncePerRoomCount(init, Rooms(init), event, message);
      assert Rooms(init) == rooms - {last};
    }
  }

  /** The emissions of a sequence of messages to one room, in order. */
  function EmitEach<M>(event: string, room: string, messages: seq<M>): (r: seq<Emission<M>>)
    ensures |r| == |messages|
    ensures forall i :: 0 <= i < |r| ==> r[i] == Emission(event, room, messages[i])
  {
    seq(|messages|, i requires 0 <= i < |messages| => Emission(event, room, messages[i]))
  }

  /** `for room in rooms: try: emit(event, message, room=room) except: log`:
      every room that does not fail receives the message once. */
  method EmitToRooms<M>(outbox: seq<Emission<M>>, rooms: set<string>, failing: set<string>, event: string, message: M)
    returns (sent: seq<Emission<M>>)
    ensures |sent| >= |outbox| && sent[..|outbox|] == outbox
    ensures OncePerRoom(sent[|outbox|..], rooms - failing, event, message)
  {
    sent := outbox;
    var remaining := rooms;
    ghost var done: set<string> := {};
    assert sent[|outbox|..] == [];
    while remaining != {}
      invariant done == rooms - remaining
      invariant |sent| >= |outbox| && sent[..|outbox|] == outbox
      invariant OncePerRoom(sent[|outbox|..], done - failing, event, message)
      decreases remaining
    {
      var room :| room in remaining;
      if room !in failing {
        OncePerRoomStep(sent[|outbox|..], done - failing, event, message, room);
        assert (sent + [Emission(event, room, message)])[|outbox|..] == sent[|outbox|..] + [Emission(event, room, message)];
        sent := sent + [Emission(event, room, message)];
      }
      remaining := remaining - {room};
      done := done + {room};
    }
    assert done == rooms;
  }
}
