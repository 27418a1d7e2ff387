/**
  A stored channel. The Channel schema file is not part of this model: a
  channel is taken to hold the `name` and `description` the create route
  gives it, plus the store's `_id` and version key `__v`.
 */
module ChannelModel {
  import opened JsValues
  import opened Ordering
  import opened Helpers

  /** A channel document; `oid` is its ObjectId, whose string form is NatToDecimal(oid). */
  datatype ChannelRecord = ChannelRecord(oid: nat, name: string, description: Option<string>)

  /** `doc.toObject()` of a stored channel. */
  function ChannelObject(c: ChannelRecord): Doc {
    var base := map["_id" := ObjectId(NatToDecimal(c.oid)), "name" := Str(c.name), "__v" := Int(0)];
    if c.description.Some? then base["description" := Str(c.description.value)] else base
  }

  /** The `{ id, name, description }` object the client receives for a channel. */
  function ChannelView(c: ChannelRecord): Doc {
    var base := map["id" := Str(NatToDecimal(c.oid)), "name" := Str(c.name)];
    if c.description.Some? then base["description" := Str(c.description.value)] else base
  }

  /** Formatting a stored channel gives exactly its client view. */
  lemma FormatChannel(c: ChannelRecord)
    ensures FormatDocument(Some(ChannelObject(c))) == Return(Some(ChannelView(c)))
  {
    var d := ChannelObject(c);
    var f := d["id" := Str(NatToDecimal(c.oid))] - {"_id", "__v"};
    assert Stringify(d["_id"]) == Return(NatToDecimal(c.oid));
    assert f.Keys == ChannelView(c).Keys;
    assert forall k :: k in f ==> f[k] == ChannelView(c)[k];
    assert f == ChannelView(c);
  }

  /** Ascending by name, as `sort({ name: 1 })` orders channels. */
  predicate ByName(a: ChannelRecord, b: ChannelRecord) {
    LexLe(a.name, b.name)
  }

  lemma ByNameIsTotalPreorder()
    ensures TotalPreorder(ByName)
  {
    forall a: ChannelRecord, b: ChannelRecord ensures ByName(a, b) || ByName(b, a) {
      LexLeTotal(a.name, b.name);
    }
    forall a: ChannelRecord, b: ChannelRecord, c: ChannelRecord | ByName(a, b) && ByName(b, c)
      ensures ByName(a, c)
    {
      LexLeTransitive(a.name, b.name, c.name);
    }
  }

  /** No two distinct channels of `s` share a name. */
  ghost predicate NamesDistinct(s: seq<ChannelRecord>) {
    forall x, y :: x in s && y in s && x.name == y.name ==> x == y
  }

  /** The first channel of a name-sorted sequence sorts at or before every other one. */
  lemma HeadSortsFirst(a: seq<ChannelRecord>, x: ChannelRecord)
    requires SortedBy(a, ByName) && x in a
    ensures LexLe(a[0].name, x.name)
  {
    var k :| 0 <= k < |a| && a[k] == x;
    if k == 0 {
      LexLeTotal(x.name, x.name);
    } else {
      assert ByName(a[0], a[k]);
    }
  }

  /** Two arrangements of the same channels that start alike hold the same channels after it. */
  lemma TailsSameChannels(a: seq<ChannelRecord>, b: seq<ChannelRecord>)
    requires a != [] && b != [] && a[0] == b[0] && multiset(a) == multiset(b)
    ensures multiset(a[1..]) == multiset(b[1..])
  {
    assert a == [a[0]] + a[1..] && b == [b[0]] + b[1..];
    assert multiset(a[1..]) == multiset(a) - multiset{a[0]};
    assert multiset(b[1..]) == multiset(b) - multiset{b[0]};
  }

  lemma TailNamesDistinct(a: seq<ChannelRecord>)
    requires a != [] && NamesDistinct(a)
    ensures NamesDistinct(a[1..])
  {
    forall y | y in a[1..] ensures y in a {
      assert a == [a[0]] + a[1..];
    }
  }

  /**
    With distinct names there is only one ascending name order: two
    name-sorted arrangements of the same channels are equal, whatever rule
    a sort uses for ties.
   */
  lemma {:induction false} SortedByNameUnique(a: seq<ChannelRecord>, b: seq<ChannelRecord>)
    requires multiset(a) == multiset(b) && NamesDistinct(a)
    requires SortedBy(a, ByName) && SortedBy(b, ByName)
    ensures a == b
  {
    assert |a| == |multiset(a)| == |multiset(b)| == |b|;
    if a != [] {
      assert b[0] in multiset(a) && a[0] in multiset(b);
      HeadSortsFirst(a, b[0]);
      HeadSortsFirst(b, a[0]);
      LexLeAntisymmetric(a[0].name, b[0].name);
      var x := a[0];
      assert x == b[0];
      var ta, tb := a[1..], b[1..];
      TailsSameChannels(a, b);
      TailNamesDistinct(a);
      assert SortedBy(ta, ByName) && SortedBy(tb, ByName);
      SortedByNameUnique(ta, tb);
    }
  }

  /** How many channels of `s` carry `name`. */
  function CountNamed(s: seq<ChannelRecord>, name: string): nat {
    if s == [] then 0 else (if s[0].name == name then 1 else 0) + CountNamed(s[1..], name)
  }
}
