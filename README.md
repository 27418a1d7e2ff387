# crypto-chat-sphere in Dafny

A model of the message path of a small wallet-identified chat application,
with proofs of what each piece promises.

The server side has three parts:

- **Document helpers** (`server/src/utils/helpers.js`). `formatMongoDocument` turns a stored document into the client shape: `id` instead of `_id`, and no `__v`. `formatMongoDocuments` does this for a list. `errorResponse` builds an error body.
- **REST routes** (`server/src/routes/channels.js`, `server/src/routes/messages.js`). They sit on top of the Message schema (`server/src/models/Message.js`). Reads fall back to defaults or an empty list when the database fails. Writes check required fields, and the channel route also checks for duplicate names.
- **Socket handlers** (`server/src/socketHandlers.js`). `join_channel` leaves every room except the socket's own id room, then joins the channel. `send_message` builds an envelope, tries to store the message and relays it to the channel's room.

The client side has two React context providers, modelled as classes whose fields are the state cells:

- **Chat state** (`src/context/ChatContext.tsx`): the message log, the channel list, the selected channel and a loading flag.
- **Wallet state** (`src/context/Web3Context.tsx`): the account and whether a connect request is in flight.

Outside effects are parameters. These are the clock (`Date.now()`, `new Date()`), `nanoid()`, whether the wallet provider is installed and what it answers, and `NODE_ENV`. The database is the `Store.Database` class. It holds the channel and message collections as sequences, a counter that hands out fresh ObjectIds, and an `up` flag. While `up` is false every operation throws.

Files: `js_values.dfy` (JavaScript values, truthiness, `String(n)`), `ordering.dfy` (sort orders and the sort), `helpers.dfy`, `http.dfy` (responses), `channel_model.dfy`, `message_model.dfy`, `store.dfy`, `channel_routes.dfy`, `message_routes.dfy`, `socket_handlers.dfy`, `chat_context.dfy`, `web3_context.dfy`.

Behaviour of the code worth knowing:

- The chat provider never talks to the server. It loads three fixed sample messages, and `sendMessage` only appends to its local log.
- The messages GET answers `[]` when the store fails. The `SAMPLE_MESSAGES` constant in `messages.js` is never used.
- A `send_message` whose fields fail schema validation is still relayed. The failed save is caught by the inner `try`, just like a database outage.
- `join_channel` keeps the socket's own id room. A socket is therefore in two rooms after a join, not one.

## Model

| member | source | states |
|---|---|---|
| `JsValues.NatToDecimal` | server/src/socketHandlers.js:24 | `String(Date.now())` is a non-empty string of decimal digits with no leading zero. |
| `JsValues.DecimalRoundTrip` | server/src/socketHandlers.js:24 | Parsing the decimal form of `n` gives back `n`. |
| `JsValues.NatToDecimalInjective` | server/src/socketHandlers.js:24 | Different instants give different fallback ids. |
| `JsValues.IntToString` | server/src/utils/helpers.js:12 | `String(n)` of an integer is a minus sign (exactly when `n < 0`) before the digits of `abs(n)`. For an unbounded integer this is weaker than JavaScript at 1e21 and above (see Left out). |
| `JsValues.Stringify` | server/src/utils/helpers.js:12 | `v.toString()` throws exactly on null; strings and ObjectIds give their text. |
| `Ordering.LexLeTotal` | server/src/routes/channels.js:17 | Any two names are comparable in the `sort({ name: 1 })` order. |
| `Ordering.LexLeTransitive` | server/src/routes/channels.js:17 | The name order is transitive. |
| `Ordering.LexLeAntisymmetric` | server/src/routes/channels.js:17 | Two names that sort each before the other are equal. |
| `Ordering.Insert` | server/src/routes/messages.js:23 | Inserting into a query result adds exactly that element (as a multiset). |
| `Ordering.SortBy` | server/src/routes/messages.js:23 | A sorted query result is a permutation of the matches. |
| `Ordering.InsertSorted` | server/src/routes/messages.js:23 | Inserting into a sorted sequence keeps it sorted, for any total preorder. |
| `Ordering.SortBySorted` | server/src/routes/channels.js:17 | The sort result is ascending and a permutation of its input. |
| `Ordering.SortByKeepsMembers` | server/src/routes/messages.js:21-23 | An element is in the sorted result exactly when it is in the input. |
| `Helpers.FormatDocument` | server/src/utils/helpers.js:8-17 | Null maps to null. A missing or null `_id` throws. Otherwise the result's keys are the input's minus `_id` and `__v`, plus `id`. `id` is the string form of `_id` and overwrites any earlier `id`. Every other field is copied unchanged. |
| `Helpers.FormatDocuments` | server/src/utils/helpers.js:24-27 | Null maps to `[]`. Otherwise length and order are kept and each element is its `FormatDocument` result. The call throws exactly when some element's formatting throws. |
| `Helpers.FormatDocumentsOfMapped` | server/src/utils/helpers.js:24-27 | If every stored document formats to its view, a query result formats to the views in order, without throwing. |
| `Helpers.ErrorResponse` | server/src/utils/helpers.js:35-42 | `success` is false. `message` is the argument, defaulting to 'Server error'. `error` is present only when NODE_ENV is 'development' and the error has a message, and then it equals that message. There are no other keys. |
| `ChannelModel.FormatChannel` | server/src/routes/channels.js:20 | A stored channel formats to exactly `{ id, name, description }`. |
| `ChannelModel.ByNameIsTotalPreorder` | server/src/routes/channels.js:17 | Ordering channels by name is a total preorder. |
| `MessageModel.Validate` | server/src/models/Message.js:3-24 | A message is valid exactly when `sender`, `content` and `channelId` are non-empty strings. Each missing path is reported. `timestamp` defaults to the creation instant and `isMine` to false. |
| `MessageModel.FormatMessage` | server/src/routes/messages.js:26 | A stored message formats to its fields with `id` and without `_id` or `__v`. |
| `MessageModel.ByTimestampIsTotalPreorder` | server/src/routes/messages.js:23 | Ordering messages by timestamp is a total preorder. |
| `MessageModel.InChannel` | server/src/routes/messages.js:21-23 | A message is selected exactly when it is stored and its `channelId` equals the parameter. Each selected message occurs as often as in the store, and the others not at all. |
| `Store.FindByName` | server/src/routes/channels.js:39 | `findOne({ name })` returns a stored channel with that exact name, or none when no channel has it. |
| `Store.Database.FindChannel` | server/src/routes/channels.js:39 | Throws while the database is down. Otherwise it finds a channel with that name exactly when one exists. |
| `Store.Database.SaveChannel` | server/src/routes/channels.js:44-48 | Throws and changes nothing while down. Otherwise it appends one channel under a fresh id. |
| `Store.Database.SaveMessage` | server/src/socketHandlers.js:33-41 | Throws and changes nothing exactly when the database is down or validation fails. Otherwise it appends the validated message under a fresh id. |
| `ChannelRoutes.FormatChannels` | server/src/routes/channels.js:20 | Formatting stored channels never throws and gives their views in order. |
| `ChannelRoutes.ListChannels` | server/src/routes/channels.js:15-27 | Status is always 200. A failed store gives the three defaults. Otherwise the body is the views of the stored channels sorted by name. It is a function of the store, so two GETs with no write between them answer the same. |
| `ChannelRoutes.ListChannelsSortedByName` | server/src/routes/channels.js:8-27 | With the store up, the body lists every stored channel once in ascending name order. With it down, the body is General, Crypto, Tech in that order. |
| `ChannelModel.SortedByNameUnique` | server/src/routes/channels.js:17 | Two name-ascending arrangements of the same channels are equal when no two channels share a name. |
| `ChannelRoutes.ListChannelsOrderIsForced` | server/src/routes/channels.js:17-20 | With unique names, any name-ascending arrangement of the stored channels is the order GET answers with, so the answer does not depend on how the store breaks ties. |
| `ChannelRoutes.CreateChannel` | server/src/routes/channels.js:30-60 | A falsy name gives 400 'Channel name is required' and changes nothing. A name already stored gives 400 'Channel with this name already exists' and changes nothing. A store failure gives 500 with `errorResponse(error, 'Error creating channel')`. Otherwise exactly one channel is appended and 201 returns its id, name and description. Unique names are preserved. |
| `ChannelRoutes.CreateChannelTwice` | server/src/routes/channels.js:39-48 | The same name posted twice succeeds once and is refused once, leaving exactly one channel with that name. |
| `ChannelRoutes.NoneNamedNotFound` | server/src/routes/channels.js:39 | When no channel has the name, the duplicate check finds nothing. |
| `ChannelRoutes.CountNamedAppend` | server/src/routes/channels.js:44-48 | Appending a channel adds one to its name's count and nothing to any other name's count. |
| `MessageRoutes.FormatMessages` | server/src/routes/messages.js:26 | Formatting stored messages never throws and gives their views in order. |
| `MessageRoutes.ListMessages` | server/src/routes/messages.js:19-33 | Status is always 200. A failed store gives `[]`. Otherwise the body is the views of the channel's messages, oldest first. |
| `MessageRoutes.ListMessagesFilteredAndOrdered` | server/src/routes/messages.js:21-23 | GET answers exactly the stored messages of the requested channel, each once, with non-decreasing timestamps. |
| `MessageRoutes.StoredMessageIsListed` | server/src/routes/messages.js:21-23 | Every stored message appears in the GET answer for its channel. |
| `MessageRoutes.CreateMessage` | server/src/routes/messages.js:36-64 | Any falsy field gives 400 'All fields are required' and stores nothing. A store failure gives 500 `{ message: 'Server error' }`. Otherwise exactly one message is stored with `isMine` false. 201 returns its id, its fields and the timestamp in milliseconds. |
| `MessageRoutes.CreateThenList` | server/src/routes/messages.js:21-51 | A message created by POST appears in a later GET of its channel. |
| `SocketHandlers.JoinIdempotent` | server/src/socketHandlers.js:4-17 | Joining the same channel twice leaves the same membership as joining once. |
| `SocketHandlers.JoinSwitchesRoom` | server/src/socketHandlers.js:7-15 | After joining A and then B, a relay to A misses the socket and a relay to B reaches it. This assumes A is not the socket's own id. |
| `SocketHandlers.JoinMembers` | server/src/socketHandlers.js:7-15 | Joining adds the socket to the channel's room members and removes it from every other room except its own id room. |
| `SocketHandlers.Hub.Disconnect` | server/src/index.js:59-61 | A disconnected socket is in no room, so no relay reaches it. |
| `SocketHandlers.Hub.Leave` | server/src/socketHandlers.js:9 | `socket.leave(room)` removes one room from that socket only. |
| `SocketHandlers.Hub.Join` | server/src/socketHandlers.js:15 | `socket.join(room)` adds one room to that socket only. |
| `SocketHandlers.Hub.JoinChannel` | server/src/socketHandlers.js:4-17 | Afterwards the socket's rooms are exactly its own id room and the channel. No other socket changes, and every socket stays in its own id room. |
| `SocketHandlers.Hub.SendMessage` | server/src/socketHandlers.js:20-55 | Missing data sends `message_error` to the sender only, with no relay and no store change. Otherwise the relay goes to exactly the channel room's members, the sender included if it joined. The envelope keeps `sender`, `content` and `channelId` unchanged. Its timestamp is the envelope's clock reading. Its id is the stored id when the save succeeds and `String(Date.now())` of the first clock reading when it fails. A stored message carries the third clock reading. The three readings are independent parameters. |
| `ChatContext.SampleMessages` | src/context/ChatContext.tsx:36-55 | Three messages from other senders, strictly increasing in timestamp, all before the load instant. |
| `ChatContext.ChatProvider.constructor` | src/context/ChatContext.tsx:60-63 | The initial state: no messages, the three default channels, General selected, loading. |
| `ChatContext.ChatProvider.LoadComplete` | src/context/ChatContext.tsx:65-70 | The log becomes the sample messages and loading ends. Channels and the selection are unchanged. |
| `ChatContext.ChatProvider.SendMessage` | src/context/ChatContext.tsx:75-85 | Appends exactly one message with this content, sender '0xYou' and `isMine` true. Nothing else changes. |
| `ChatContext.ChatProvider.CreateChannel` | src/context/ChatContext.tsx:87-96 | Appends exactly one channel with the given name, description and id, and selects it. Messages and loading are unchanged. |
| `ChatContext.ChatProvider.SetCurrentChannel` | src/context/ChatContext.tsx:60-62 | Changes only the selected channel. The shared message log is untouched. |
| `ChatContext.CreateSameNameTwice` | src/context/ChatContext.tsx:87-95 | There is no duplicate check: two creates with one name append two channels with that name, each with the id it was created with. Earlier channels are kept. |
| `Web3Context.Web3Provider.constructor` | src/context/Web3Context.tsx:15-16 | Starts with no account and no request in flight. |
| `Web3Context.Web3Provider.IsConnected` | src/context/Web3Context.tsx:82 | Connected exactly when the account is neither null nor empty. |
| `Web3Context.Web3Provider.BeginConnect` | src/context/Web3Context.tsx:24-32 | Without a provider nothing changes. Otherwise isConnecting is true while the request is pending. |
| `Web3Context.Web3Provider.FinishConnect` | src/context/Web3Context.tsx:33-51 | A non-empty account list selects its first entry. An empty list or a rejection keeps the account. isConnecting ends false either way. |
| `Web3Context.Web3Provider.ConnectWallet` | src/context/Web3Context.tsx:24-52 | The whole `connectWallet`: with no provider, account and isConnecting are unchanged. Otherwise isConnecting is true while pending and false afterwards, and the account follows the reply. |
| `Web3Context.Web3Provider.AccountsChanged` | src/context/Web3Context.tsx:56-66 | The handler exists only when a provider is installed. An empty list sets the account to null (disconnected). Otherwise the account becomes the first entry. |

## Left out

- I/O and logging: `console.*`, toasts, HTTP transport and JSON serialization. An `undefined` field is simply absent from an object.
- Concurrency: async interleaving at `await` points. Each handler runs to completion against one store state, so the database cannot go down between a route's `findOne` and its `save`.
- Express, socket.io and Mongoose wiring (`server/src/index.js`). `Hub.Connect` and `Hub.Disconnect` stand for what socket.io does on connect and disconnect; they are not code of this repository.
- The Channel schema file is not part of this model. A channel is taken to hold `name`, `description`, `_id` and `__v`.
- JsValues.IntToString: JavaScript numbers are modelled as unbounded integers. `String(n)` writes numbers of magnitude 1e21 or more in exponent form, and integers above 2^53 are not exact. The contract's plain-digits promise therefore holds in JavaScript only below 1e21.
- Dates: instants are millisecond integers. The socket envelope's `timestamp` is `toISOString()` in the source. A stored Date is rendered as an ISO string in GET output. Neither formatting is modelled.
- ObjectIds: the n-th id the store hands out is written as the decimal digits of n, not as 24 hexadecimal digits.
- Request bodies: each field is a string or absent. Mongoose's casting of non-string values is not modelled.
- A thrown value that is itself null or undefined, which makes `errorResponse` throw in development mode, is not modelled.
- `formatMongoDocuments` is modelled on lists of non-null documents, which is what queries return. A null element is covered by `FormatDocument` alone.
- Sort ties: the store leaves the order of equal keys unspecified. The model's insertion sort keeps them in store order.
- `io.to(undefined)`: a relay to a missing channel id is modelled as reaching no socket.
- UI components (`Sidebar.tsx`, `ChatInterface.tsx`, `Index.tsx`), `apiService.ts` and `socketService.ts` are not part of this model. They are transport and rendering; the fallbacks in `apiService.ts` repeat the server's.
- The clean-up functions of the client effects (`clearTimeout`, `removeListener`) are not modelled.
