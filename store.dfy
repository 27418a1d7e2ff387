/**
  The document store the server writes through: the Channel and Message
  collections held in memory, a counter that hands out fresh ObjectIds,
  and a flag saying whether the database can be reached. While it cannot,
  every operation throws, as the driver does once its buffered operations
  time out.
 */
module Store {
  import opened JsValues
  import opened ChannelModel
  import opened MessageModel

  /** The error a store operation throws while the database is unreachable. */
  const StoreUnavailable := "Operation buffering timed out after 10000ms"

  /** The error `save()` throws for a message that fails schema validation. */
  const ValidationFailed := "Message validation failed"

  /** `findOne({ name })` over the channel collection. */
  function FindByName(s: seq<ChannelRecord>, name: string): (r: Option<ChannelRecord>)
    ensures r.Some? ==> r.value in s && r.value.name == name
    ensures r.None? ==> forall c :: c in s ==> c.name != name
  {
    if s == [] then None
    else if s[0].name == name then Some(s[0])
    else FindByName(s[1..], name)
  }

  class Database {
    var channels: seq<ChannelRecord>
    var messages: seq<MessageRecord>
    var nextId: nat
    var up: bool

    /** Every ObjectId handed out is below `nextId` and used by one document only. */
    ghost predicate Valid()
      reads this
    {
      && (forall i :: 0 <= i < |channels| ==> channels[i].oid < nextId)
      && (forall i :: 0 <= i < |messages| ==> messages[i].oid < nextId)
      && (forall i, j :: 0 <= i < j < |channels| ==> channels[i].oid < channels[j].oid)
      && (forall i, j :: 0 <= i < j < |messages| ==> messages[i].oid < messages[j].oid)
      && (forall i, j :: 0 <= i < |channels| && 0 <= j < |messages| ==> channels[i].oid != messages[j].oid)
    }

    /** No two channels share a name. */
    ghost predicate UniqueNames()
      reads this
    {
      forall i, j :: 0 <= i < j < |channels| ==> channels[i].name != channels[j].name
    }

    constructor (up: bool)
      ensures Valid() && UniqueNames()
      ensures channels == [] && messages == [] && nextId == 0 && this.up == up
    {
      channels, messages, nextId, this.up := [], [], 0, up;
    }

    /** The database becomes reachable or unreachable. */
    method SetAvailable(up: bool)
      modifies this
      ensures this.up == up
      ensures channels == old(channels) && messages == old(messages) && nextId == old(nextId)
    {
      this.up := up;
    }

    /** `Channel.findOne({ name })`. */
    method FindChannel(name: string) returns (r: Outcome<Option<ChannelRecord>>)
      ensures !up ==> r == Throw(StoreUnavailable)
      ensures up && r.Return? && r.value.Some? ==> r.value.value in channels && r.value.value.name == name
      ensures up ==> r.Return? && (r.value.None? <==> forall c :: c in channels ==> c.name != name)
    {
      if !up {
        r := Throw(StoreUnavailable);
      } else {
        r := Return(FindByName(channels, name));
      }
    }

    /** `new Channel({ name, description }).save()`: stores it under a fresh ObjectId. */
    method SaveChannel(name: string, description: Option<string>) returns (r: Outcome<ChannelRecord>)
      requires Valid()
      modifies this
      ensures Valid() && up == old(up) && messages == old(messages)
      ensures !old(up) ==> r == Throw(StoreUnavailable) && unchanged(this)
      ensures old(up) ==>
        && r == Return(ChannelRecord(old(nextId), name, description))
        && channels == old(channels) + [r.value]
        && nextId == old(nextId) + 1
    {
      if !up {
        r := Throw(StoreUnavailable);
      } else {
        var c := ChannelRecord(nextId, name, description);
        channels := channels + [c];
        nextId := nextId + 1;
        r := Return(c);
      }
    }

    /**
      `new Message(fields).save()` at instant `now`: a document that fails
      validation or meets an unreachable database throws; otherwise it is
      stored under a fresh ObjectId.
     */
    method SaveMessage(fields: MessageFields, now: int) returns (r: Outcome<MessageRecord>)
      requires Valid()
      modifies this
      ensures Valid() && up == old(up) && channels == old(channels)
      ensures r.Throw? <==> !old(up) || Validate(fields, now).Invalid?
      ensures r.Throw? ==> unchanged(this)
      ensures r.Return? ==>
        var d := Validate(fields, now).draft;
        && r.value == MessageRecord(old(nextId), d.sender, d.content, d.channelId, d.timestamp, d.isMine)
        && messages == old(messages) + [r.value]
        && nextId == old(nextId) + 1
    {
      var v := Validate(fields, now);
      if v.Invalid? {
        r := Throw(ValidationFailed);
      } else if !up {
        r := Throw(StoreUnavailable);
      } else {
        var d := v.draft;
        var m := MessageRecord(nextId, d.sender, d.content, d.channelId, d.timestamp, d.isMine);
        messages := messages + [m];
        nextId := nextId + 1;
        r := Return(m);
      }
    }
  }
}
