/**
  The channel routes: GET lists the channels by name (or three fixed
  channels when the store fails), POST creates a channel with a unique,
  non-empty name.
 */
module ChannelRoutes {
  import opened JsValues
  import opened Ordering
  import opened Helpers
  import opened Http
  import opened ChannelModel
  import opened Store

  /** The channels GET answers with when the store fails. */
  const DEFAULT_CHANNELS: seq<Doc> := [
    map["id" := Str("general"), "name" := Str("General"), "description" := Str("General discussion")],
    map["id" := Str("crypto"), "name" := Str("Crypto"), "description" := Str("Cryptocurrency discussions")],
    map["id" := Str("tech"), "name" := Str("Tech"), "description" := Str("Technology discussions")]
  ]

  lemma FormatAnyChannel()
    ensures forall c :: FormatDocument(Some(ChannelObject(c))) == Return(Some(ChannelView(c)))
  {
    forall c ensures FormatDocument(Some(ChannelObject(c))) == Return(Some(ChannelView(c))) {
      FormatChannel(c);
    }
  }

  /** formatMongoDocuments over stored channels: never throws, gives their client views in order. */
  function FormatChannels(s: seq<ChannelRecord>): (r: Outcome<seq<Doc>>)
    ensures r == Return(MapDocs(s, ChannelView))
  {
    FormatAnyChannel();
    FormatDocumentsOfMapped(s, ChannelObject, ChannelView);
    FormatDocuments(Some(MapDocs(s, ChannelObject)))
  }

  /**
    GET /: the stored channels sorted by name and formatted; any failure
    answers the defaults instead, always with status 200.
   */
  function ListChannels(db: Database): (r: Response)
    reads db
    ensures r.status == 200
    ensures !db.up ==> r.body == List(DEFAULT_CHANNELS)
    ensures db.up ==> r.body == List(MapDocs(SortBy(db.channels, ByName), ChannelView))
  {
    if !db.up then Response(200, List(DEFAULT_CHANNELS))
    else
      // formatting stored channels never throws, so only the query can fail
      Response(200, List(FormatChannels(SortBy(db.channels, ByName)).value))
  }

  /**
    What GET answers: with the store up, one object per stored channel, in
    ascending name order; with it down, General, Crypto and Tech in that
    order.
   */
  lemma ListChannelsSortedByName(db: Database)
    ensures db.up ==>
      var s := SortBy(db.channels, ByName);
      && ListChannels(db).body == List(MapDocs(s, ChannelView))
      && multiset(s) == multiset(db.channels)
      && forall i, j :: 0 <= i < j < |s| ==> LexLe(s[i].name, s[j].name)
    ensures !db.up ==>
      var items := ListChannels(db).body.items;
      && |items| == 3
      && items[0]["name"] == Str("General")
      && items[1]["name"] == Str("Crypto")
      && items[2]["name"] == Str("Tech")
  {
    ByNameIsTotalPreorder();
    SortBySorted(db.channels, ByName);
  }

  /**
    With unique channel names the GET order is forced: any name-ascending
    arrangement of the stored channels is the one ListChannels answers
    with, so the order does not depend on how the store breaks ties.
   */
  lemma ListChannelsOrderIsForced(db: Database, s: seq<ChannelRecord>)
    requires db.UniqueNames()
    requires multiset(s) == multiset(db.channels) && SortedBy(s, ByName)
    ensures s == SortBy(db.channels, ByName)
    ensures db.up ==> ListChannels(db).body == List(MapDocs(s, ChannelView))
  {
    var t := SortBy(db.channels, ByName);
    ByNameIsTotalPreorder();
    SortBySorted(db.channels, ByName);
    forall x, y | x in s && y in s && x.name == y.name ensures x == y {
      assert x in multiset(db.channels) && y in multiset(db.channels);
      var i :| 0 <= i < |db.channels| && db.channels[i] == x;
      var j :| 0 <= j < |db.channels| && db.channels[j] == y;
      assert i == j;
    }
    SortedByNameUnique(s, t);
  }

  /**
    POST /: a falsy name is refused; a name some channel already has is
    refused; otherwise the channel is stored and returned with its new id.
    A store failure answers 500 with errorResponse(error, 'Error creating
    channel').
   */
  method CreateChannel(db: Database, name: Option<string>, description: Option<string>, nodeEnv: Option<string>)
    returns (resp: Response)
    requires db.Valid()
    modifies db
    ensures db.Valid() && db.up == old(db.up) && db.messages == old(db.messages)
    ensures !Truthy(name) ==>
      resp == Response(400, Object(MessageBody("Channel name is required"))) && unchanged(db)
    ensures Truthy(name) && !old(db.up) ==>
      && resp == Response(500, Object(ErrorResponse(Thrown(Some(StoreUnavailable)), Some("Error creating channel"), nodeEnv)))
      && unchanged(db)
    ensures Truthy(name) && old(db.up) && FindByName(old(db.channels), name.value).Some? ==>
      resp == Response(400, Object(MessageBody("Channel with this name already exists"))) && unchanged(db)
    ensures Truthy(name) && old(db.up) && FindByName(old(db.channels), name.value).None? ==>
      var c := ChannelRecord(old(db.nextId), name.value, description);
      && db.channels == old(db.channels) + [c]
      && db.nextId == old(db.nextId) + 1
      && resp == Response(201, Object(ChannelView(c)))
    ensures old(db.UniqueNames()) ==> db.UniqueNames()
  {
    if !Truthy(name) {
      return Response(400, Object(MessageBody("Channel name is required")));
    }
    var existing := db.FindChannel(name.value);
    match existing
    case Throw(e) =>
      resp := Response(500, Object(ErrorResponse(Thrown(Some(e)), Some("Error creating channel"), nodeEnv)));
    case Return(found) =>
      if found.Some? {
        resp := Response(400, Object(MessageBody("Channel with this name already exists")));
      } else {
        var saved := db.SaveChannel(name.value, description);
        if saved.Return? {
          resp := Response(201, Object(ChannelView(saved.value)));
        } else {
          resp := Response(500, Object(ErrorResponse(Thrown(Some(saved.error)), Some("Error creating channel"), nodeEnv)));
        }
      }
  }

  /**
    Creating the same name twice: the first call succeeds, the second is
    refused as a duplicate, and exactly one channel carries the name.
   */
  method CreateChannelTwice(db: Database, name: string, d1: Option<string>, d2: Option<string>, nodeEnv: Option<string>)
    returns (first: Response, second: Response)
    requires db.Valid() && db.up && name != ""
    requires CountNamed(db.channels, name) == 0
    modifies db
    ensures first.status == 201 && first.body.Object? && "name" in first.body.fields && first.body.fields["name"] == Str(name)
    ensures second == Response(400, Object(MessageBody("Channel with this name already exists")))
    ensures db.channels == old(db.channels) + [ChannelRecord(old(db.nextId), name, d1)]
    ensures CountNamed(db.channels, name) == 1
  {
    NoneNamedNotFound(db.channels, name);
    first := CreateChannel(db, Some(name), d1, nodeEnv);
    ghost var after := db.channels;
    assert FindByName(after, name).Some? by {
      assert after[|after| - 1].name == name;
      NotFoundMeansNoneNamed(after, name, |after| - 1);
    }
    second := CreateChannel(db, Some(name), d2, nodeEnv);
    CountNamedAppend(old(db.channels), ChannelRecord(old(db.nextId), name, d1), name);
  }

  lemma {:induction false} NoneNamedNotFound(s: seq<ChannelRecord>, name: string)
    requires CountNamed(s, name) == 0
    ensures FindByName(s, name).None?
  {
    if s != [] {
      NoneNamedNotFound(s[1..], name);
    }
  }

  lemma NotFoundMeansNoneNamed(s: seq<ChannelRecord>, name: string, k: nat)
    requires k < |s| && s[k].name == name
    ensures FindByName(s, name).Some?
  {
    assert s[k] in s;
  }

  lemma {:induction false} CountNamedAppend(s: seq<ChannelRecord>, c: ChannelRecord, name: string)
    ensures CountNamed(s + [c], name) == CountNamed(s, name) + (if c.name == name then 1 else 0)
  {
    if s != [] {
      assert (s + [c])[1..] == s[1..] + [c];
      CountNamedAppend(s[1..], c, name);
    }
  }
}
