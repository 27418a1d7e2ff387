/**
  The live-connection handlers: which rooms each connected socket is in,
  the join_channel room switch, and the send_message path that builds an
  envelope, tries to store the message and relays it to the channel's room.
 */
module SocketHandlers {
  import opened JsValues
  import opened MessageModel
  import opened Store

  /** A socket's id; every socket is also in the room named by its own id. */
  type ConnId = string
  type Room = string

  /** The `messageData` a client sends with send_message. */
  datatype MessageData = MessageData(sender: Option<string>, content: Option<string>, channelId: Option<string>)

  /** The receive_message payload; `timestamp` is the instant, in milliseconds, it was built. */
  datatype Envelope = Envelope(id: string, sender: Option<string>, content: Option<string>, channelId: Option<string>, timestamp: nat)

  /** What a send_message event emits. */
  datatype Emission =
    | Relay(recipients: set<ConnId>, envelope: Envelope)   // io.to(channelId).emit('receive_message', envelope)
    | MessageError(to: ConnId, error: string)              // socket.emit('message_error', { error })

  /** The sockets whose rooms include `room`; an undefined room has no members. */
  function Members(rooms: map<ConnId, set<Room>>, room: Option<Room>): set<ConnId> {
    if room.None? then {} else set s | s in rooms && room.value in rooms[s]
  }

  /** The membership join_channel leaves behind: the socket's own room and the channel. */
  function RoomsAfterJoin(rooms: map<ConnId, set<Room>>, sid: ConnId, channelId: Room): map<ConnId, set<Room>> {
    rooms[sid := {sid, channelId}]
  }

  /** Joining the same channel again changes nothing. */
  lemma JoinIdempotent(rooms: map<ConnId, set<Room>>, sid: ConnId, channelId: Room)
    ensures RoomsAfterJoin(RoomsAfterJoin(rooms, sid, channelId), sid, channelId) == RoomsAfterJoin(rooms, sid, channelId)
  {
  }

  /**
    After joining A and then B, a relay to A no longer reaches the socket
    (unless A is the socket's own id room), while a relay to B does.
   */
  lemma JoinSwitchesRoom(rooms: map<ConnId, set<Room>>, sid: ConnId, a: Room, b: Room)
    requires a != b && a != sid
    ensures sid !in Members(RoomsAfterJoin(RoomsAfterJoin(rooms, sid, a), sid, b), Some(a))
    ensures sid in Members(RoomsAfterJoin(RoomsAfterJoin(rooms, sid, a), sid, b), Some(b))
  {
  }

  /** Joining a channel adds the socket to that room's members and touches no one else. */
  lemma JoinMembers(rooms: map<ConnId, set<Room>>, sid: ConnId, channelId: Room, room: Room)
    requires room != sid && room != channelId
    ensures Members(RoomsAfterJoin(rooms, sid, channelId), Some(channelId)) == Members(rooms, Some(channelId)) + {sid}
    ensures Members(RoomsAfterJoin(rooms, sid, channelId), Some(room)) == Members(rooms, Some(room)) - {sid}
  {
  }

  class Hub {
    /** socket.rooms for every connected socket. */
    var rooms: map<ConnId, set<Room>>

    /** Every connected socket stays in its own id room. */
    ghost predicate Valid()
      reads this
    {
      forall s :: s in rooms ==> s in rooms[s]
    }

    constructor ()
      ensures Valid() && rooms == map[]
    {
      rooms := map[];
    }

    /** A socket connects: it starts in its own id room only. */
    method Connect(sid: ConnId)
      requires Valid() && sid !in rooms
      modifies this
      ensures Valid() && rooms == old(rooms)[sid := {sid}]
    {
      rooms := rooms[sid := {sid}];
    }

    /** A socket disconnects: it leaves every room and is no longer relayed to. */
    method Disconnect(sid: ConnId)
      requires Valid()
      modifies this
      ensures Valid() && rooms == old(rooms) - {sid}
      ensures forall room :: sid !in Members(rooms, room)
    {
      rooms := rooms - {sid};
    }

    /** socket.leave(room). */
    method Leave(sid: ConnId, room: Room)
      requires sid in rooms
      modifies this
      ensures rooms == old(rooms)[sid := old(rooms)[sid] - {room}]
    {
      rooms := rooms[sid := rooms[sid] - {room}];
    }

    /** socket.join(room). */
    method Join(sid: ConnId, room: Room)
      requires sid in rooms
      modifies this
      ensures rooms == old(rooms)[sid := old(rooms)[sid] + {room}]
    {
      rooms := rooms[sid := rooms[sid] + {room}];
    }

    /**
      join_channel: leaves each room of a snapshot of the socket's rooms
      except its own id room, then joins `channelId`.
     */
    method JoinChannel(sid: ConnId, channelId: Room)
      requires Valid() && sid in rooms
      modifies this
      ensures Valid() && rooms == RoomsAfterJoin(old(rooms), sid, channelId)
    {
      var snapshot := rooms[sid];
      var pending := snapshot;
      while pending != {}
        invariant sid in rooms && rooms == old(rooms)[sid := rooms[sid]]
        invariant rooms[sid] == pending + {sid}
        decreases pending
      {
        var room :| room in pending;
        if room != sid {
          Leave(sid, room);
        }
        pending := pending - {room};
      }
      assert rooms[sid] == {sid} by {
        assert pending + {sid} == {sid};
      }
      Join(sid, channelId);
      assert {sid} + {channelId} == {sid, channelId};
    }

    /** The sockets `io.to(room)` reaches. */
    function Recipients(room: Option<Room>): set<ConnId>
      reads this
    {
      Members(rooms, room)
    }

    /**
      send_message from socket `sid`. The handler reads the clock three
      times: `idNow` for the fallback id, `envelopeNow` for the envelope's
      timestamp and `saveNow` for the stored message's timestamp; the three
      readings are independent. Missing `messageData` throws before
      anything is sent: only the sender gets message_error. Otherwise the envelope carries the
      submitted fields and the fallback id String(idNow); if the message is
      stored (the database is up and the message passes schema validation)
      the id becomes the stored one. The relay to the channel's room happens
      either way.
     */
    method SendMessage(sid: ConnId, data: Option<MessageData>, idNow: nat, envelopeNow: nat, saveNow: nat, db: Database)
      returns (event: Emission)
      requires db.Valid()
      modifies db
      ensures db.Valid() && db.up == old(db.up) && db.channels == old(db.channels)
      ensures data.None? ==> event == MessageError(sid, "Failed to send message") && unchanged(db)
      ensures data.Some? ==>
        var d := data.value;
        var v := Validate(MessageFields(d.sender, d.content, d.channelId, Some(saveNow), Some(false)), saveNow);
        && event.Relay?
        && event.recipients == Members(rooms, d.channelId)
        && event.envelope.sender == d.sender
        && event.envelope.content == d.content
        && event.envelope.channelId == d.channelId
        && event.envelope.timestamp == envelopeNow
        && (old(db.up) && v.Valid? ==>
              && event.envelope.id == NatToDecimal(old(db.nextId))
              && db.messages == old(db.messages) + [MessageRecord(old(db.nextId), d.sender.value, d.content.value, d.channelId.value, saveNow, false)]
              && db.nextId == old(db.nextId) + 1)
        && (!(old(db.up) && v.Valid?) ==> event.envelope.id == NatToDecimal(idNow) && unchanged(db))
    {
      if data.None? {
        return MessageError(sid, "Failed to send message");
      }
      var d := data.value;
      var envelope := Envelope(NatToDecimal(idNow), d.sender, d.content, d.channelId, envelopeNow);
      var saved := db.SaveMessage(MessageFields(d.sender, d.content, d.channelId, Some(saveNow), Some(false)), saveNow);
      if saved.Return? {
        envelope := envelope.(id := NatToDecimal(saved.value.oid));
      }
      event := Relay(Recipients(d.channelId), envelope);
    }
  }
}
