/**
  The message routes: GET lists one channel's messages oldest first (or
  nothing when the store fails), POST stores a message whose sender,
  content and channel are all given.
 */
module MessageRoutes {
  import opened JsValues
  import opened Ordering
  import opened Helpers
  import opened Http
  import opened MessageModel
  import opened Store

  lemma FormatAnyMessage()
    ensures forall m :: FormatDocument(Some(MessageObject(m))) == Return(Some(MessageView(m)))
  {
    forall m ensures FormatDocument(Some(MessageObject(m))) == Return(Some(MessageView(m))) {
      FormatMessage(m);
    }
  }

  /** formatMongoDocuments over stored messages: never throws, gives their client views in order. */
  function FormatMessages(s: seq<MessageRecord>): (r: Outcome<seq<Doc>>)
    ensures r == Return(MapDocs(s, MessageView))
  {
    FormatAnyMessage();
    FormatDocumentsOfMapped(s, MessageObject, MessageView);
    FormatDocuments(Some(MapDocs(s, MessageObject)))
  }

  /** `find({ channelId }).sort({ timestamp: 1 })`. */
  function ChannelHistory(messages: seq<MessageRecord>, channelId: string): seq<MessageRecord> {
    SortBy(InChannel(messages, channelId), ByTimestamp)
  }

  /**
    GET /:channelId: the channel's messages, oldest first, formatted; any
    failure answers an empty list instead, always with status 200.
   */
  function ListMessages(db: Database, channelId: string): (r: Response)
    reads db
    ensures r.status == 200
    ensures !db.up ==> r.body == List([])
    ensures db.up ==> r.body == List(MapDocs(ChannelHistory(db.messages, channelId), MessageView))
  {
    if !db.up then Response(200, List([]))
    else
      // formatting stored messages never throws, so only the query can fail
      Response(200, List(FormatMessages(ChannelHistory(db.messages, channelId)).value))
  }

  /**
    What GET answers with the store up: exactly the stored messages of the
    requested channel, each once, in non-decreasing timestamp order.
   */
  lemma ListMessagesFilteredAndOrdered(db: Database, channelId: string)
    requires db.up
    ensures
      var s := ChannelHistory(db.messages, channelId);
      && ListMessages(db, channelId).body == List(MapDocs(s, MessageView))
      && multiset(s) == multiset(InChannel(db.messages, channelId))
      && (forall m :: m in s <==> m in db.messages && m.channelId == channelId)
      && (forall i, j :: 0 <= i < j < |s| ==> s[i].timestamp <= s[j].timestamp)
  {
    var f := InChannel(db.messages, channelId);
    ByTimestampIsTotalPreorder();
    SortBySorted(f, ByTimestamp);
    forall m ensures m in ChannelHistory(db.messages, channelId) <==> m in f {
      SortByKeepsMembers(f, ByTimestamp, m);
    }
  }

  /** A stored message of a channel is among what GET answers for that channel. */
  lemma StoredMessageIsListed(db: Database, m: MessageRecord)
    requires db.up && m in db.messages
    ensures MessageView(m) in ListMessages(db, m.channelId).body.items
  {
    ListMessagesFilteredAndOrdered(db, m.channelId);
    var s := ChannelHistory(db.messages, m.channelId);
    var k :| 0 <= k < |s| && s[k] == m;
    assert MapDocs(s, MessageView)[k] == MessageView(m);
  }

  /**
    POST /: unless sender, content and channelId are all truthy the request
    is refused; otherwise the message is stored with the current instant as
    its timestamp and returned with its new id. A store failure answers 500
    { message: 'Server error' }.
   */
  method CreateMessage(db: Database, sender: Option<string>, content: Option<string>, channelId: Option<string>, now: int)
    returns (resp: Response)
    requires db.Valid()
    modifies db
    ensures db.Valid() && db.up == old(db.up) && db.channels == old(db.channels)
    ensures !(Truthy(sender) && Truthy(content) && Truthy(channelId)) ==>
      resp == Response(400, Object(MessageBody("All fields are required"))) && unchanged(db)
    ensures Truthy(sender) && Truthy(content) && Truthy(channelId) && !old(db.up) ==>
      resp == Response(500, Object(MessageBody("Server error"))) && unchanged(db)
    ensures Truthy(sender) && Truthy(content) && Truthy(channelId) && old(db.up) ==>
      var m := MessageRecord(old(db.nextId), sender.value, content.value, channelId.value, now, false);
      && db.messages == old(db.messages) + [m]
      && db.nextId == old(db.nextId) + 1
      && resp == Response(201, Object(map[
           "id" := Str(NatToDecimal(m.oid)), "sender" := Str(m.sender), "content" := Str(m.content),
           "timestamp" := Int(now), "channelId" := Str(m.channelId)]))
  {
    if !Truthy(sender) || !Truthy(content) || !Truthy(channelId) {
      return Response(400, Object(MessageBody("All fields are required")));
    }
    var saved := db.SaveMessage(MessageFields(sender, content, channelId, Some(now), None), now);
    match saved
    case Throw(_) =>
      resp := Response(500, Object(MessageBody("Server error")));
    case Return(m) =>
      resp := Response(201, Object(map[
        "id" := Str(NatToDecimal(m.oid)), "sender" := Str(m.sender), "content" := Str(m.content),
        "timestamp" := Int(m.timestamp), "channelId" := Str(m.channelId)]));
  }

  /** A message POST stores is listed by a later GET of its channel. */
  method CreateThenList(db: Database, sender: string, content: string, channelId: string, now: int)
    returns (created: Response, listed: Response)
    requires db.Valid() && db.up && sender != "" && content != "" && channelId != ""
    modifies db
    ensures created.status == 201
    ensures listed == ListMessages(db, channelId)
    ensures MessageView(MessageRecord(old(db.nextId), sender, content, channelId, now, false)) in listed.body.items
  {
    created := CreateMessage(db, Some(sender), Some(content), Some(channelId), now);
    var m := MessageRecord(old(db.nextId), sender, content, channelId, now, false);
    assert db.messages[|db.messages| - 1] == m;
    StoredMessageIsListed(db, m);
    listed := ListMessages(db, channelId);
  }
}
