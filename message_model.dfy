/**
  The Message schema: `sender`, `content` and `channelId` are required
  strings, `timestamp` defaults to the instant the document is created and
  `isMine` defaults to false. A required string path rejects undefined,
  null and the empty string.
 */
module MessageModel {
  import opened JsValues
  import opened Ordering
  import opened Helpers

  /** The fields a new Message document is constructed with (absent = not supplied). */
  datatype MessageFields = MessageFields(
    sender: Option<string>,
    content: Option<string>,
    channelId: Option<string>,
    timestamp: Option<int>,
    isMine: Option<bool>)

  /** A message that passed validation, before the store assigns its `_id`. */
  datatype MessageDraft = MessageDraft(sender: string, content: string, channelId: string, timestamp: int, isMine: bool)

  /** A stored message; `oid` is its ObjectId, whose string form is NatToDecimal(oid). */
  datatype MessageRecord = MessageRecord(oid: nat, sender: string, content: string, channelId: string, timestamp: int, isMine: bool)

  /** The outcome of `save()`'s validation: the document, or the required paths that are missing. */
  datatype Validation = Valid(draft: MessageDraft) | Invalid(missing: seq<string>)

  /**
    Constructs a Message at instant `now` and validates it: defaults fill
    `timestamp` and `isMine`, and each required path that is not a
    non-empty string is reported, in schema order.
   */
  function Validate(f: MessageFields, now: int): (r: Validation)
    ensures r.Valid? <==> Truthy(f.sender) && Truthy(f.content) && Truthy(f.channelId)
    ensures r.Valid? ==>
      && r.draft.sender == f.sender.value
      && r.draft.content == f.content.value
      && r.draft.channelId == f.channelId.value
      && r.draft.timestamp == (if f.timestamp.Some? then f.timestamp.value else now)
      && r.draft.isMine == (f.isMine.Some? && f.isMine.value)
    ensures r.Invalid? ==>
      && |r.missing| >= 1
      && ("sender" in r.missing <==> !Truthy(f.sender))
      && ("content" in r.missing <==> !Truthy(f.content))
      && ("channelId" in r.missing <==> !Truthy(f.channelId))
      && forall p :: p in r.missing ==> p in ["sender", "content", "channelId"]
  {
    var missing :=
      (if Truthy(f.sender) then [] else ["sender"]) +
      (if Truthy(f.content) then [] else ["content"]) +
      (if Truthy(f.channelId) then [] else ["channelId"]);
    if missing == [] then
      Valid(MessageDraft(f.sender.value, f.content.value, f.channelId.value,
                         f.timestamp.GetOr(now), f.isMine.GetOr(false)))
    else Invalid(missing)
  }

  /** `doc.toObject()` of a stored message. */
  function MessageObject(m: MessageRecord): Doc {
    map["_id" := ObjectId(NatToDecimal(m.oid)), "sender" := Str(m.sender), "content" := Str(m.content),
        "channelId" := Str(m.channelId), "timestamp" := Int(m.timestamp), "isMine" := Bool(m.isMine),
        "__v" := Int(0)]
  }

  /** The object the client receives for a stored message from the list route. */
  function MessageView(m: MessageRecord): Doc {
    map["id" := Str(NatToDecimal(m.oid)), "sender" := Str(m.sender), "content" := Str(m.content),
        "channelId" := Str(m.channelId), "timestamp" := Int(m.timestamp), "isMine" := Bool(m.isMine)]
  }

  /** Formatting a stored message gives exactly its client view. */
  lemma FormatMessage(m: MessageRecord)
    ensures FormatDocument(Some(MessageObject(m))) == Return(Some(MessageView(m)))
  {
    var d := MessageObject(m);
    var f := d["id" := Str(NatToDecimal(m.oid))] - {"_id", "__v"};
    assert Stringify(d["_id"]) == Return(NatToDecimal(m.oid));
    assert f.Keys == MessageView(m).Keys;
    assert forall k :: k in f ==> f[k] == MessageView(m)[k];
    assert f == MessageView(m);
  }

  /** Ascending by timestamp, as `sort({ timestamp: 1 })` orders messages. */
  predicate ByTimestamp(a: MessageRecord, b: MessageRecord) {
    a.timestamp <= b.timestamp
  }

  lemma ByTimestampIsTotalPreorder()
    ensures TotalPreorder(ByTimestamp)
  {
  }

  /** The messages of `s` whose `channelId` is `channelId`, in store order. */
  function InChannel(s: seq<MessageRecord>, channelId: string): (r: seq<MessageRecord>)
    ensures forall m :: m in r <==> m in s && m.channelId == channelId
    ensures forall m :: multiset(r)[m] == if m.channelId == channelId then multiset(s)[m] else 0
    ensures |r| <= |s|
  {
    if s == [] then []
    else
      assert s == [s[0]] + s[1..];
      (if s[0].channelId == channelId then [s[0]] else []) + InChannel(s[1..], channelId)
  }
}
