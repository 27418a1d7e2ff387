/**
  The client's chat state: the message log, the channel list, the
  selected channel and the loading flag, with the operations the chat
  provider offers its components. The one-second load timer is the
  explicit LoadComplete step; `Date.now()` and `nanoid()` values are
  parameters.
 */
module ChatContext {
  import opened JsValues

  datatype Message = Message(id: string, sender: string, content: string, timestamp: int, isMine: Option<bool>)

  datatype Channel = Channel(id: string, name: string, description: Option<string>)

  const DEFAULT_CHANNELS: seq<Channel> := [
    Channel("general", "General", Some("General discussion")),
    Channel("crypto", "Crypto", Some("Cryptocurrency discussions")),
    Channel("tech", "Tech", Some("Technology discussions"))
  ]

  /** The sender every message sent from this client carries. */
  const LOCAL_SENDER := "0xYou"

  /**
    SAMPLE_MESSAGES, built once when the module loads at instant
    `loadTime` (milliseconds) with three fresh ids: posted two hours, one
    hour and thirty minutes earlier, by three other senders.
   */
  function SampleMessages(loadTime: int, id1: string, id2: string, id3: string): (r: seq<Message>)
    ensures |r| == 3
    ensures forall i, j :: 0 <= i < j < |r| ==> r[i].timestamp < r[j].timestamp
    ensures forall i :: 0 <= i < |r| ==> r[i].timestamp < loadTime && r[i].isMine == None && r[i].sender != LOCAL_SENDER
  {
    [
      Message(id1, "0x1234...5678", "Hey everyone, welcome to CryptoChat!", loadTime - 1000 * 60 * 60 * 2, None),
      Message(id2, "0x8765...4321", "This is awesome! I love the Web3 integration.", loadTime - 1000 * 60 * 60 * 1, None),
      Message(id3, "0x9876...3210", "Has anyone tried using smart contracts for messaging yet?", loadTime - 1000 * 60 * 30, None)
    ]
  }

  class ChatProvider {
    var messages: seq<Message>
    var channels: seq<Channel>
    var currentChannel: Option<Channel>
    var loading: bool
    /** The module's SAMPLE_MESSAGES. */
    const samples: seq<Message>

    /** The provider mounts: no messages yet, the default channels, General selected, loading. */
    constructor (loadTime: int, id1: string, id2: string, id3: string)
      ensures messages == [] && channels == DEFAULT_CHANNELS
      ensures currentChannel == Some(DEFAULT_CHANNELS[0]) && currentChannel.value.name == "General"
      ensures loading
      ensures samples == SampleMessages(loadTime, id1, id2, id3)
    {
      messages := [];
      channels := DEFAULT_CHANNELS;
      currentChannel := Some(DEFAULT_CHANNELS[0]);
      loading := true;
      samples := SampleMessages(loadTime, id1, id2, id3);
    }

    /**
      The load timer fires: the log becomes the sample messages (replacing
      anything sent before) and loading ends.
     */
    method LoadComplete()
      modifies this
      ensures messages == samples && !loading
      ensures channels == old(channels) && currentChannel == old(currentChannel)
    {
      messages := samples;
      loading := false;
    }

    /** sendMessage: appends one message of this client's at instant `now`. */
    method SendMessage(content: string, id: string, now: int)
      modifies this
      ensures messages == old(messages) + [Message(id, LOCAL_SENDER, content, now, Some(true))]
      ensures channels == old(channels) && currentChannel == old(currentChannel) && loading == old(loading)
    {
      messages := messages + [Message(id, LOCAL_SENDER, content, now, Some(true))];
    }

    /** createChannel: appends a channel with a fresh id and selects it; names are not checked for duplicates. */
    method CreateChannel(name: string, description: Option<string>, id: string)
      modifies this
      ensures channels == old(channels) + [Channel(id, name, description)]
      ensures currentChannel == Some(Channel(id, name, description))
      ensures messages == old(messages) && loading == old(loading)
    {
      var channel := Channel(id, name, description);
      channels := channels + [channel];
      currentChannel := Some(channel);
    }

    /** setCurrentChannel: selects a channel; the message log is shared by all channels and stays as it is. */
    method SetCurrentChannel(channel: Channel)
      modifies this
      ensures currentChannel == Some(channel)
      ensures messages == old(messages) && channels == old(channels) && loading == old(loading)
    {
      currentChannel := Some(channel);
    }
  }

  /** Creating two channels with one name keeps both, each with the id it was created with. */
  method CreateSameNameTwice(p: ChatProvider, name: string, description: Option<string>, id1: string, id2: string)
    modifies p
    ensures |p.channels| == |old(p.channels)| + 2
    ensures p.channels[..|p.channels| - 2] == old(p.channels)
    ensures p.channels[|p.channels| - 2] == Channel(id1, name, description)
    ensures p.channels[|p.channels| - 1] == Channel(id2, name, description)
    ensures p.currentChannel == Some(Channel(id2, name, description))
  {
    p.CreateChannel(name, description, id1);
    p.CreateChannel(name, description, id2);
  }
}
