# A verified model of Stream Cloud

Stream Cloud connects browsers and other clients to devices through three kinds of node: one platform, managers that
log in to it, and devices that log in to a manager. All nodes are built from actors that exchange messages, and they
talk to each other in JSON-RPC over web sockets. This project models six parts of it in Dafny and proves what the parts
are for:

- the JSON printer and parser, and the JSON-RPC envelope on top of them (`Json*.dfy`);
- the actor runtime: mailboxes, the job queue and the worker (`Mailbox.dfy`, `Runtime*.dfy`, `Worker.dfy`);
- base 64 (`Base64*.dfy`);
- the graph of an environment, the groups in it and their contacts (`Graph.dfy`, `Group.dfy`);
- the relay of requests and answers between clients, platform, managers and devices (`Relay*.dfy`);
- the write queues of the HTTP and web-socket sessions (`Sessions.dfy`).

`dafny verify dfyconfig.toml` checks everything; run it with `--resource-limit 2000000`.

## How the model reads the source

**JSON.** A `char` stands for one byte of a `std::string`. A document is a value of `JsonValue.Value`; an object is a
map that is printed in the key order of `std::map`. The functions in `JsonParser` say what one pass over a text yields,
the methods in `JsonParserLoops` have the loops of the source and compute those functions. `Undefined` marks texts that
the source gives no meaning to: it would run past the terminating null, shift a digit that is not hexadecimal, leave
the range of `atoi`, or read a real. The conversion of gathered UTF-16 units to bytes is a library call and appears as
the parameter `conv`; every theorem holds for all conversions. The operands of the shifts in `utf16_to_8` are read from
left to right. `JsonGrammar` is an independent reading of RFC 8259: syntax trees with their white space, the text of a
tree and the document it denotes. The parser is slightly more liberal than the grammar (raw control characters, leading
zeros); the trees admit what it reads.

**Runtime.** `Runtime` is a machine whose steps are the atomic actions of the source: a sender's put and its submit are
two steps, a handler may send while it runs, and the worker has a step for each access to a mailbox or to the job
queue. Theorems speak of all sequences of steps, so of all interleavings. There is one worker, as in the shipped
configuration, because the cache of a mailbox is declared not to be thread-safe. `Worker` has the loops of
`async_actor::run` and of `worker::run` over mutable fields; each of its methods returns the steps of the machine that
it amounts to.

**Base 64.** The reference is a relation between bytes and text on the level of bits (`IsEncoding`, `IsDecoding`), after
section 4 of RFC 4648. The loops use mutable staging arrays whose initial contents are arbitrary.

**Relay.** A frame is the JSON map behind the text on a connection; that text and map determine each other is the
theorem `JsonRoundTrip.RoundTrip`. A packet is a message between two actors or a frame on a connection, and a step
delivers any one of the packets in flight. What a database says is a parameter of the step: rows, a count and the
password that it has for the login asked for, or a failure. The caches of confirmed keys are part of the state. Session
ids are unique among all nodes (the source takes them from a clock). A session is *live* while frames pass through it
and *stored* while its listener knows it: a connection that ends with an error is removed by the router's `error`
handler, one that is closed in order stays stored, because `ws_session::on_read` returns without a word
(`modules/stream-providers/src/ws/ws_session.cpp:45-47`). Any session may end at any time, and the relay closes some
itself. Clients send any frame whatever. A *token* is a session that asked together with the id of its request;
`forged` counts the tokens that response frames of clients claim, `dropped` those that a handler neither passed on nor
answered. A handler that throws drops its packet; in the source the exception then leaves the worker.

A run is *strict* when the frames of clients are requests with fields of the types that the handlers they get to read,
when keys have a dot, and when the profile key of a manager is used with the methods of users only
(`RelayShape.UserRequest`). A client of the platform may also ask the platform itself, with a profile key or as a guest
(`RelayShape.PlatformRequest`), for all that answers a client. Conservation, the bound on hops, the answers to the
right client, who is let in, and that requests and answers arrive unchanged are proved for all runs; what needs a typed
request says `strict`.

What reaches whom is told by the steps of a run: `Last` is the packet that a step delivers, `Sent`, `Vouched`, `Granted`
and `WasRegistered` say what clients sent, databases confirmed and registries held at some step before
(`RelayHistory`, `RelayRegistered`, `RelayAccess`).

**Where the code and its documentation differ, or the code surprises.**

- The configuration refuses a negative throughput but accepts 0 (`modules/stream-config/src/dynamic_environment.cpp:97`).
  With 0 no message is ever handled, and a queued job is requeued for ever; `Workers.HandlesIffPositive` and
  `Workers.Worker.Turn` give the exact condition.
- `parse` of a response drops its error, so the trip of a response through text is exact if and only if there is no
  error (`JsonRpcRoundTrip.ResponseRoundTrip`).
- `create_link` takes any two numbers while vertices are looked up by position; lookup stays right if and only if the
  new ids leave no gap (`Graph.LinkKeepsAlignedIff`).
- The routers do not look at who sends a response, so a response of a client is written to whichever session it names.
  Answers go only to those who asked if and only if no client sends such a frame (`RelayForgery.AnswersOnlyAskersIff`).
- A device whose session was removed stays registered. A request for it goes to the platform by the listener's pipe, the
  platform refuses it, and on the refusal the manager closes its own connection to the platform
  (`modules/stream-manager/src/platform.cpp:97-108`). `RelayLinks.LinkSurvivesIff` says exactly when the connection
  survives, `RelayForgotten.OneDeviceCostsOthers` gives the run.
- `emplace` keeps the session that a manager registered first, so after that connecting again does not help until
  somebody deregisters or deletes it (`RelayForgotten.ReconnectingDoesNotHelp`).
- A manager's notifications to its own clients carry its profile key; nothing else that is written to clients does
  (`RelayForgery.ProfileKeyIff`).
- A login that the database does not know has the empty password (`RelayAccess.Matches`), and a key that was confirmed
  stays good until it is forgotten (`RelayAdmission.CacheIsRemembered`).
- A device reads the first two parts of a method only, so `control.on` with another dot and anything behind it is `on`
  as well (`RelayAuthority.CommandsAreAsked`).
- A call of `users.auth` with the profile key is sent round for ever (`RelayCircles.AuthenticationCircles`).
- Reading a request adds a null for missing parameters to the message itself, and the manager passes that message on.
- `subscriptions.off` for a listener that is not there answers with an error and a result at once, and so does
  `devices.connect` with an action that is no text.
- A successful `disconnect` of a manager or a device is not answered.

## Model

| member | source | states |
|---|---|---|
| `JsonPrinter.EscapeInPlace` | modules/stream-api/src/json/detail/escape.hpp:16-27 | rewriting the string in place, with an index that steps over each replacement, escapes every byte exactly once |
| `JsonPrinter.EscapeConcat` | modules/stream-api/src/json/detail/escape.hpp:16-27 | escaping works byte by byte: the escape of a concatenation is the concatenation of the escapes |
| `JsonPrinter.Print` | modules/stream-api/src/json/value.hpp:282-306 | the printing operators append exactly the text of the value to the stream, whatever is in it |
| `JsonPrinter.PrintArray` | modules/stream-api/src/json/value.hpp:293-320 | `streamjoin` puts separators between the elements of an array and nowhere else |
| `JsonPrinter.PrintMap` | modules/stream-api/src/json/value.hpp:293-341 | the members of a map are printed in the order of their keys, by bytes, with separators between them only |
| `JsonPrinter.PrintFields` | modules/stream-api/src/json/value.hpp:293-341 | the loop of `streamjoin` prints each field once, with separators between them only |
| `JsonValue.SortedKeys` | modules/stream-api/src/json/config.hpp:22-23 | the key order of `std::map`: every key once, and each later key goes on where an earlier one ends or has the greater byte where they first differ |
| `JsonValue.KeyLeqIff` | modules/stream-api/src/json/config.hpp:22-23 | the recursive comparison of keys is the lexicographic order by bytes |
| `JsonParserLoops.GatherUnitsLoop` | modules/stream-api/src/json/detail/utf.hpp:23-45 | the loop over adjacent escapes gathers the code units that the specification function lists and stops where it says |
| `JsonParserLoops.ReadStringLoop` | modules/stream-api/src/json/detail/parser.hpp:78-121 | the string loop, with its jumps over escapes, reads the string that the specification function reads |
| `JsonParserLoops.ReadNumberLoop` | modules/stream-api/src/json/detail/parser.hpp:135-157 | the integer branch: the value of `atoi`, and the iterator behind the digits |
| `JsonParserLoops.ReadLiteralLoop` | modules/stream-api/src/json/detail/parser.hpp:160-184 | the literal branch: three characters decide, then everything up to a delimiter is skipped |
| `JsonParserLoops.FilledInPlace` | modules/stream-api/src/json/detail/parser_util.hpp:45-79 | storing an empty container and filling it through the reference from `get_map` or `get_array` is storing the filled container |
| `JsonParserLoops.Parse` | modules/stream-api/src/json/detail/parser.hpp:20-193 | the recursive loop with its key/value state computes the specification function on every text |
| `JsonParserLoops.ParseText` | modules/stream-api/src/json/detail/parser.hpp:219-245 | parsing a whole text finds the first opening bracket of the wanted kind and parses from there |
| `JsonDenotation.ParsesDocument` | modules/stream-api/src/json/detail/parser.hpp:20-245 | any well-formed text, with any white space and anything behind it, yields the document that the grammar of RFC 8259 gives it, and the parse ends just past the closing bracket |
| `JsonDenotation.ParsesContainer` | modules/stream-api/src/json/detail/parser.hpp:44-193 | from behind an opening bracket the loop returns the denoted container just behind its closing bracket, at any depth |
| `JsonDenotation.ParsesMember` | modules/stream-api/src/json/detail/parser.hpp:98-121 | a member stores its value under its key, over an earlier one: the last duplicate key wins |
| `JsonDenotation.ParsesValue` | modules/stream-api/src/json/detail/parser.hpp:44-190 | one value of any kind in any context is read as what it denotes and stored once |
| `JsonDenotation.ReadsChars` | modules/stream-api/src/json/detail/parser.hpp:79-94 | a string of raw characters, escapes and runs of code units is read as the string it denotes, up to its closing quote |
| `JsonDenotation.GathersRun` | modules/stream-api/src/json/detail/utf.hpp:23-45 | a maximal run of adjacent code-unit escapes is gathered whole, so surrogate pairs are never split, and reading resumes one past it |
| `JsonDenotation.HexQuadIsHexadecimal` | modules/stream-api/src/json/detail/utf.hpp:12-36 | four hexadecimal digits are read as their value, between 0 and 65535 |
| `JsonDenotation.ReadsNumber` | modules/stream-api/src/json/detail/parser.hpp:135-157 | a signed decimal that fits 32 bits is read as its value |
| `JsonRoundTrip.SaveRenders` | modules/stream-api/src/json/value.hpp:282-341 | what is printed is the text of a well-formed syntax tree of the grammar |
| `JsonRoundTrip.CanonicalDenotes` | modules/stream-api/src/json/value.hpp:282-341 | that tree denotes the value that was printed |
| `JsonRoundTrip.RoundTrip` | modules/stream-api/src/json/detail/parser.hpp:219-253 | parsing what was printed gives the value back, for every map or array of any depth without reals and with 32-bit integers |
| `JsonRoundTrip.SaveIsInjective` | modules/stream-api/src/json/detail/parser.hpp:247-253 | no two such values print alike |
| `JsonRpcLoops.JsonMap.Index` | modules/stream-api/src/json/map.hpp:65-67 | looking up a missing key inserts null, even through a constant map |
| `JsonRpcLoops.JsonMap.Set` | modules/stream-api/src/json/map.hpp:179-181 | `set` inserts or replaces and leaves all other keys alone |
| `JsonRpcLoops.JsonMap.Erase` | modules/stream-api/src/json/map.hpp:188-189 | `erase` removes one key only |
| `JsonRpcLoops.JsonMap.ToString` | modules/stream-api/src/json/map.hpp:201-202 | the text of the map is that of the printer |
| `JsonRpcLoops.ReadRequest` | modules/stream-api/src/json-rpc.cpp:24-45 | reads a request out of a map and leaves the nulls behind that the lookups insert |
| `JsonRpcLoops.ReadNotify` | modules/stream-api/src/json-rpc.cpp:47-66 | the same for a notification |
| `JsonRpcLoops.ReadResponse` | modules/stream-api/src/json-rpc.cpp:68-81 | the same for a response, whose error is not read |
| `JsonRpcLoops.WriteRequest` | modules/stream-api/src/json-rpc.cpp:83-101 | builds the object field by field, without null parameters and empty metadata, and prints it |
| `JsonRpcLoops.WriteNotify` | modules/stream-api/src/json-rpc.cpp:127-145 | the same for a notification |
| `JsonRpcLoops.WriteResponse` | modules/stream-api/src/json-rpc.cpp:103-125 | the same for a response, with its error object if there is one; what is in that object says `JsonRpcRoundTrip.ResponseOnWire` |
| `JsonRpcRoundTrip.RequestRoundTrip` | modules/stream-api/src/json-rpc.cpp:11-101 | a request survives the trip through text, omitted fields included, and is recognised as a request only |
| `JsonRpcRoundTrip.NotifyRoundTrip` | modules/stream-api/src/json-rpc.cpp:11-145 | the same for a notification |
| `JsonRpcRoundTrip.ResponseRoundTrip` | modules/stream-api/src/json-rpc.cpp:15-125 | a response survives the trip if and only if it has no error, and it loses only that |
| `JsonRpcRoundTrip.RequestOnWire` | modules/stream-api/src/json-rpc.cpp:83-101 | the text of a request, read back, has the version, the method and the id, the parameters and the metadata if there are any, and no other member |
| `JsonRpcRoundTrip.NotifyOnWire` | modules/stream-api/src/json-rpc.cpp:127-145 | the same for a notification, which has no id |
| `JsonRpcRoundTrip.ResponseOnWire` | modules/stream-api/src/json-rpc.cpp:103-125 | the same for a response: its result and, if there is an error, an object with its code, its message and its data under these names and nothing else |
| `JsonRpcRoundTrip.ResponseTextIsUnique` | modules/stream-api/src/json-rpc.cpp:103-125 | responses with equal texts are equal, errors included, although the reader drops the error |
| `Mailboxes.Mailbox.GetTakesOldest` | modules/stream-core/src/messaging/blocking_mail_queue.cpp:19-33 | a get takes the oldest message outside the cache, and finds none only if there is none |
| `Mailboxes.BlockingMailQueue.Put` | modules/stream-core/src/messaging/blocking_mail_queue.cpp:8-17 | a put adds the message behind all that wait |
| `Mailboxes.BlockingMailQueue.Get` | modules/stream-core/src/messaging/blocking_mail_queue.cpp:19-33 | `get` splices when the local queue is empty and pops its front |
| `Mailboxes.BlockingMailQueue.Sync` | modules/stream-core/src/messaging/blocking_mail_queue.cpp:59-61 | the shared queue moves to the front of the local one |
| `Mailboxes.BlockingMailQueue.PushToCache` | modules/stream-core/src/messaging/blocking_mail_queue.cpp:35-42 | a null is refused, anything else goes behind the cache |
| `Mailboxes.BlockingMailQueue.PopToCache` | modules/stream-core/src/messaging/blocking_mail_queue.cpp:44-52 | the front of the cache, or nothing |
| `RuntimeInvariant.StepKeepsInv` | modules/stream-core/src/actor/async_actor.cpp:18-80 | every step of a sender, a handler or the worker keeps order, loses no message and loses no wakeup |
| `RuntimeInvariant.RunKeepsInv` | modules/stream-core/src/actor/async_actor.cpp:18-80 | so in every interleaving handled, current, cached, in hand, local and shared messages of an actor are together the puts in their order, and an actor with a pending message is queued, running or about to be queued |
| `RuntimeInvariant.AwaitingIsSafe` | modules/stream-core/src/actor/async_actor.cpp:51-66 | a run that returns `awaiting` with a full cache leaves an actor that is announced by a sender |
| `RuntimeInvariant.WorkKeepsOrder` | modules/stream-core/src/actor/async_actor.cpp:24-66 | the worker moves messages between queues and cache without changing their order |
| `RuntimeInvariant.IdleMeansHandled` | modules/stream-core/src/executor/worker.hpp:63-85 | an idle worker with an empty job queue and no send in flight has handled every message that was sent |
| `RuntimeInvariant.HandledIsPrefix` | modules/stream-core/src/actor/async_actor.cpp:18-66 | at every moment the handled messages of an actor are the oldest of those sent to it, each once |
| `Workers.RunIsBounded` | modules/stream-core/src/actor/async_actor.cpp:18-66 | whatever senders do meanwhile, one run handles at most the configured number of messages and asks to be resumed only after exactly that many |
| `Workers.HandlesIffPositive` | modules/stream-config/src/dynamic_environment.cpp:93-103 | some run handles a message if and only if the configured throughput is positive |
| `Workers.TotalUpdates` | modules/stream-core/src/messaging/blocking_mail_queue.cpp:8-61 | a change to one mailbox changes the number of waiting messages by the difference of its sizes |
| `Workers.Worker.Send` | modules/stream-core/src/actor/async_actor.cpp:68-81 | a send is a put and then a job at the end of the queue |
| `Workers.Worker.Execute` | modules/stream-core/src/actor/async_actor.cpp:28-32 | a handler with its sends is a run of the machine |
| `Workers.Worker.ActorRun` | modules/stream-core/src/actor/async_actor.cpp:18-66 | the loops of a run are a run of the machine; left alone a run asks to be resumed exactly when it used up its allowance |
| `Workers.Worker.DrainToCache` | modules/stream-core/src/actor/async_actor.cpp:53-57 | the drain leaves nothing outside the cache and loses nothing |
| `Workers.Worker.LastCheck` | modules/stream-core/src/actor/async_actor.cpp:61-65 | the last look decides between `awaiting` and `resume`, and caches what it found |
| `Workers.Worker.Turn` | modules/stream-core/src/executor/worker.hpp:63-85 | one turn of the worker keeps the invariant, and with silent handlers lowers messages plus jobs if and only if the throughput is positive |
| `Workers.Worker.DrainQueue` | modules/stream-core/src/executor/worker.hpp:63-85 | with silent handlers the worker empties the job queue, and then every message has been handled |
| `RuntimeDrain.TurnsAreBounded` | modules/stream-core/src/executor/worker.hpp:63-85 | once nothing new is sent, a worker with positive throughput makes no more turns than messages, jobs and submits were left, whatever order the unfinished sends and the worker step in |
| `Base64.IndexOf` | modules/stream-crypt/src/base64.cpp:7-15 | the place of a character in the alphabet |
| `Base64Loops.Encode` | modules/stream-crypt/src/base64.cpp:17-57 | for every byte string the text has the same bits, zero-filled to six, and is padded to whole groups of four |
| `Base64Loops.EncodeTail` | modules/stream-crypt/src/base64.cpp:38-53 | one or two bytes left over, in staging arrays with old contents |
| `Base64Loops.Decode` | modules/stream-crypt/src/base64.cpp:59-94 | for every string the bytes are the whole octets of the characters before the first one outside the alphabet |
| `Base64Loops.DecodeTail` | modules/stream-crypt/src/base64.cpp:83-91 | one to three characters left over, in staging arrays with old contents |
| `Base64Loops.QuadCarries` | modules/stream-crypt/src/base64.cpp:27-30 | the four masks and shifts carry exactly the bits of three bytes |
| `Base64Loops.TripleCarries` | modules/stream-crypt/src/base64.cpp:73-75 | the three masks and shifts carry exactly the bits of four characters |
| `Base64.DecodeUndoesEncode` | modules/stream-crypt/src/base64.cpp:17-94 | decoding an encoding gives the bytes back |
| `Base64.EncodeUndoesDecodeIff` | modules/stream-crypt/src/base64.cpp:17-94 | encoding what was decoded gives the text back if and only if the text is canonical in the sense of section 3.5 of RFC 4648 |
| `Base64.EncodingIsUnique` | modules/stream-crypt/src/base64.cpp:17-57 | the reference relation determines the text |
| `Base64.DecodingIsUnique` | modules/stream-crypt/src/base64.cpp:59-94 | the reference relation determines the bytes |
| `Base64.DecodesPrefix` | modules/stream-crypt/src/base64.cpp:67 | decoding a string is decoding its longest prefix inside the alphabet |
| `Graph.Node.AddIsUnion` | modules/stream-core/src/environment/adjacency_list.hpp:70-81 | adding a link keeps the listing strictly increasing and adds that link only, repeated or not |
| `Graph.StoredVertex.AddVertex` | modules/stream-core/src/environment/adjacency_list.hpp:111-123 | the vector stays sorted, and the vertex and nothing else is new |
| `Graph.StoredVertex.AddEdge` | modules/stream-core/src/environment/adjacency_list.hpp:129-165 | the link relation grows by exactly one pair, and the vertices by its two ends |
| `Graph.StoredVertex.FindingAdjacency` | modules/stream-core/src/environment/adjacency_list.hpp:198-207 | on aligned vertices the result is the strictly increasing listing of exactly the linked ids |
| `Graph.LookupRightIff` | modules/stream-core/src/environment/adjacency_list.hpp:125-127 | positional lookup finds every vertex if and only if the ids are the first numbers |
| `Graph.LinkKeepsAlignedIff` | modules/stream-core/src/environment/storage_space.cpp:67-69 | a link keeps lookup right if and only if its ids leave no gap; issued ids leave none |
| `Groups.StorageSpace.Add` | modules/stream-core/src/environment/storage_space.cpp:27-65 | ids are issued in order, vertex `i` sits at position `i`, and nothing known about older ids changes |
| `Groups.StorageSpace.CreateLink` | modules/stream-core/src/environment/storage_space.cpp:67-69 | between issued ids exactly one link is new and all other layers stay |
| `Groups.StorageSpace.CurrentLayer` | modules/stream-core/src/environment/storage_space.cpp:75-83 | the addresses of exactly the linked actors in the order of their ids |
| `Groups.Group.Add` | modules/stream-core/src/environment/abstract_group.cpp:16-30 | a newcomer joins the end of the layer and is told every contact shared so far; contacts stay complete and the cursor valid, and every other layer of the shared space and every older address stays |
| `Groups.Group.AddShared` | modules/stream-core/src/environment/abstract_group.cpp:32-53 | a new contact is told to the entry point and to every member so far; contacts stay complete, and all layers of the shared space and every older address stay |
| `Groups.Group.Join` | modules/stream-core/src/environment/abstract_group.cpp:55-74 | joining tells the other entry point to this entry point and to the members of now, each once |
| `Groups.CompleteCounts` | modules/stream-core/src/environment/abstract_group.cpp:16-53 | with complete contacts a member is told about a shared actor as often as both were added, so once for distinct actors, whichever came first |
| `Groups.CompleteWithMember` | modules/stream-core/src/environment/abstract_group.cpp:16-30 | what a newcomer is due |
| `Groups.CompleteWithShared` | modules/stream-core/src/environment/abstract_group.cpp:32-53 | what a new contact makes due |
| `Groups.Group.OthersDoNotDisturb` | modules/stream-core/src/environment/abstract_group.cpp:76-82 | a group stays valid, with its members and contacts, when the space grows as `add`, `add_shared` and the constructor of another group ensure |
| `Groups.Cooperation.CreateGroup` | modules/stream-core/src/environment/cooperation.cpp:8-12 | a new group of the environment has no members and no contacts, and all groups before it stay valid with what they had |
| `Groups.Cooperation.Add` | modules/stream-core/src/environment/abstract_group.cpp:16-30 | adding to one of any number of groups on one space leaves all of them valid, so their contacts complete, and the members and contacts of the others alone |
| `Groups.Cooperation.AddShared` | modules/stream-core/src/environment/abstract_group.cpp:32-53 | the same for a shared contact, so for every interleaving of these calls over all groups |
| `Groups.Cooperation.Join` | modules/stream-core/src/environment/abstract_group.cpp:55-74 | the same for a join between two groups of the environment |
| `Groups.Cooperation.Send` | modules/stream-core/src/environment/abstract_group.cpp:88-99 | the same for a send, which moves the cursor of its own group only |
| `Groups.Group.Send` | modules/stream-core/src/environment/abstract_group.cpp:88-99 | the member at the cursor gets the message and the cursor goes to the next place |
| `Groups.Group.Broadcast` | modules/stream-core/src/environment/abstract_group.cpp:101-110 | every member gets the message once |
| `Groups.Group.SendEach` | modules/stream-core/src/environment/abstract_group.cpp:88-99 | in a window of sends every member gets its share, rounded down or up |
| `Groups.CycleCounts` | modules/stream-core/src/environment/abstract_group.cpp:88-99 | exactly how many of k sends reach a place |
| `Groups.CycleIsFair` | modules/stream-core/src/environment/abstract_group.cpp:88-99 | in any window of k sends among n members each gets k/n messages, rounded down or up |
| `RelayMessages.RequestFrame` | modules/stream-api/src/json-rpc.cpp:83-101 | a serialized request is read back as itself, metadata included |
| `RelayMessages.ReadFrame` | modules/stream-manager/src/platform.cpp:59-69 | reading a request in the manager does not change what the message means to the next reader |
| `RelayMessages.MarkedFrame` | modules/stream-manager/src/platform.cpp:224-240 | marking a message with metadata changes neither its kind nor its id |
| `RelayMessages.SplitAtDot` | modules/stream-manager/src/router.cpp:77-84 | a method name is split into service and method |
| `RelayMessages.SplitHead` | modules/stream-manager/src/router.cpp:77-84 | the first part of any name goes up to its first dot, and the rest is split likewise |
| `RelayHandlers.AtPlatformMoves` | modules/stream-platform/src/router.cpp:47-189 | a request of any client goes to the managers, to the authentication or to a service under the id of its session, or is refused to it once; what is no request keeps the request it claims |
| `RelayHandlers.ProfileMoves` | modules/stream-platform/src/profile.cpp:144-235 | the authentication of a profile forwards or refuses once, whatever the database does |
| `RelayHandlers.RoutedOnPlatform` | modules/stream-platform/src/router.cpp:194-261 | routing on the platform forwards or refuses once |
| `RelayHandlers.ServedOnPlatform` | modules/stream-platform/src/managers.cpp:56-384 | no handler of the platform passes on or answers more than the one request of its task; those that answer clients do it exactly once for typed requests |
| `RelayHandlers.DismissalMoves` | modules/stream-platform/src/managers.cpp:116-194 | deleting a registered manager sends it a request to disconnect that is nobody's, and answers the client once |
| `RelayHandlers.ToManagerMoves` | modules/stream-platform/src/managers.cpp:337-384 | the asking session travels in the metadata, or an error goes back to it |
| `RelayHandlers.ToClientMoves` | modules/stream-platform/src/managers.cpp:386-411 | the session that asked comes out of the metadata again |
| `RelayHandlers.FromPlatformMoves` | modules/stream-manager/src/platform.cpp:44-81 | a request from the platform enters the router under the id of the session that asked |
| `RelayHandlers.AtManagerMoves` | modules/stream-manager/src/router.cpp:56-187 | a typed request is forwarded or refused exactly once and any frame at most once; every answer of a device is forwarded once |
| `RelayHandlers.AuthMoves` | modules/stream-manager/src/users.cpp:268-362 | authentication, by profile key too, forwards or refuses once, whatever the database does; which of the two it is says `RelayAdmission.UserLetInIff` |
| `RelayHandlers.ServiceMoves` | modules/stream-manager/src/router.cpp:200-299 | routing to a service forwards or refuses once, for users and for the holder of the profile key |
| `RelayHandlers.TypedIsReadable` | modules/stream-manager/src/devices.cpp:226 | no handler that a typed request gets to throws on it |
| `RelayHandlers.ServeMoves` | modules/stream-manager/src/devices.cpp:291-682 | no handler of the manager passes on or answers more than the one request of its task; those of the user methods, and the internal ones behind them, do it exactly once for typed requests |
| `RelayHandlers.ToDeviceMoves` | modules/stream-manager/src/devices.cpp:472-529 | the device gets a request with the same id that carries the session that asked, or an error goes back; which action the device gets says `RelayAuthority.CommandsAreAsked` |
| `RelayHandlers.WithGroupsMoves` | modules/stream-manager/src/connections.cpp:234-425 | the two queries for groups forward or refuse once |
| `RelayHandlers.CheckAccessMoves` | modules/stream-manager/src/subscriptions.cpp:250-357 | the access check forwards or refuses once |
| `RelayHandlers.ControlMoves` | modules/stream-manager/src/devices.cpp:291-359 | a control request goes on to the connections or is refused once |
| `RelayHandlers.ConnectionsSubscribeMoves` | modules/stream-manager/src/connections.cpp:330-476 | subscribing and unsubscribing go on or are refused once |
| `RelayHandlers.SubscriptionsDevicesMoves` | modules/stream-manager/src/subscriptions.cpp:199-248 | the list of a user's groups goes on to the connections, or the failure is answered |
| `RelayHandlers.OnMoves` | modules/stream-manager/src/subscriptions.cpp:359-451 | each branch of a subscription answers once |
| `RelayHandlers.OffMoves` | modules/stream-manager/src/subscriptions.cpp:453-504 | each branch of an unsubscription answers once |
| `RelayHandlers.FromDeviceMoves` | modules/stream-manager/src/devices.cpp:531-566 | the answer of a registered device goes to the session in its metadata |
| `RelayHandlers.AtDeviceMoves` | modules/stream-device/src/manager.cpp:52-120 | the device works on the request under the session that asked |
| `RelayHandlers.ControlAnswersOnce` | modules/stream-device/src/control.cpp:24-144 | an action is answered once; its notification belongs to no request |
| `RelayHandlers.DeviceWriteMoves` | modules/stream-device/src/manager.cpp:289-329 | the answer carries the session that asked and the keys of the device |
| `RelayDismissal.HandledDeletes` | modules/stream-platform/src/managers.cpp:116-194 | no handler makes a request that deletes a manager out of one that does not |
| `RelayDismissal.HandledKeepsManager` | modules/stream-platform/src/managers.cpp:31-37 | with typed requests a manager stays registered under its session unless a request deletes it |
| `RelayInvariant.PlatformWriteAccounts` | modules/stream-providers/src/ws/ws_listener.cpp:81-102 | a frame is written to its client, goes to its manager, or to nobody because the session has ended; nothing is added |
| `RelayInvariant.ManagerWriteAccounts` | modules/stream-providers/src/ws/ws_listener.cpp:81-102 | a frame goes to the stored session or through the pipe to the platform, and to one of them only |
| `RelayInvariant.PipedReply` | modules/stream-manager/src/platform.cpp:213-252 | what is for a session of the platform goes there with the id of that session |
| `RelayInvariant.PipedRequest` | modules/stream-manager/src/platform.cpp:213-252 | a request that is piped by mistake becomes one of the manager itself |
| `RelayInvariant.HandledAccounts` | modules/stream-manager/src/router.cpp:56-299 | no handler duplicates or redirects the request it works on, whatever clients send; for typed requests the packets it sends have the shape of their hop |
| `RelayInvariant.AllShapedPersists` | modules/stream-manager/src/devices.cpp:34-46 | opening, ending and registering sessions elsewhere does not disturb a packet in flight |
| `RelayInvariant.StepKeepsInv` | modules/stream-platform/src/managers.cpp:337-411 | every step keeps: the requests received, with those that clients claim to answer, are exactly those in flight, answered or dropped |
| `RelayInvariant.RunKeepsInv` | modules/stream-platform/src/managers.cpp:337-411 | the same for every run of any number of clients, managers and devices, whatever clients send, databases answer and sessions end |
| `RelayInvariant.AnswersGoHome` | modules/stream-platform/src/managers.cpp:337-411 | in every run the answers written are for requests received on those same sessions, or for what a response of a client claims, each at most once |
| `RelayInvariant.AnswerIsForItsClient` | modules/stream-platform/src/managers.cpp:386-411 | every response written to a session has the id of a request of that session, or of one that a response of a client claims |
| `RelayInvariant.QuietMeansAnswered` | modules/stream-manager/src/router.cpp:56-299 | with nothing in flight each of these was answered exactly once or dropped |
| `RelayForgery.AnswersOnlyAskersIff` | modules/stream-platform/src/router.cpp:162-189 | whatever else clients send, answers go only to those who asked, each once, if and only if no client sends a response that names a session |
| `RelayForgery.ForgedIsWritten` | modules/stream-platform/src/managers.cpp:386-411 | the run for the other case: a response of one client is written to another one that asked nothing |
| `RelayForgery.ProfileKeyIff` | modules/stream-manager/src/subscriptions.cpp:507-539 | with typed requests clients are written no requests, and a profile key if and only if the frame is a notification of a manager to its own client |
| `RelayLinks.HandledIsPlaced` | modules/stream-providers/src/ws/ws_listener.cpp:81-102 | with stored device sessions no handler misplaces a frame of the manager |
| `RelayLinks.ForgottenDeviceCuts` | modules/stream-manager/src/platform.cpp:97-108 | a client of the manager can ask for a registered device whose session is not stored, and the manager closes its connection to the platform |
| `RelayLinks.LinkSurvivesIff` | modules/stream-manager/src/platform.cpp:97-108 | from a quiet state, as long as nobody else closes it, deletes the manager or removes its devices' sessions, the connection survives all that clients may ask and databases answer if and only if every registered device of the manager has a stored session |
| `RelayWitness.RequestIsWritten` | modules/stream-manager/src/devices.cpp:291-529 | a client of the manager can make it write a request for any action to the session of any registered device |
| `RelayLosses.HandledIsSound` | modules/stream-manager/src/devices.cpp:531-566 | between live sessions no handler drops a request, and the next one will not either |
| `RelayLosses.DeadDeviceDrops` | modules/stream-manager/src/devices.cpp:472-529 | a client can ask for a registered device whose session has ended, and the request is dropped |
| `RelayLosses.DeadManagerDrops` | modules/stream-platform/src/managers.cpp:337-384 | the same for a registered manager whose connection has ended |
| `RelayLosses.NothingLostIff` | modules/stream-platform/src/managers.cpp:337-411 | from a quiet state, as long as only the relay itself ends sessions and nobody deletes a manager, no request is ever dropped, whatever clients ask and databases answer, if and only if every registered manager and device has a live session |
| `RelayLosses.CalmDropsNothing` | modules/stream-manager/src/devices.cpp:531-566 | while nobody ends or deregisters a session or deletes a manager, a relay with live registered sessions drops nothing and closes none |
| `RelayLosses.CalmAnswersAll` | modules/stream-manager/src/router.cpp:56-299 | so from the start, with nothing in flight, every request was answered exactly once |
| `RelayForgotten.ForgottenDeviceCostsOthers` | modules/stream-manager/src/platform.cpp:97-108 | after a request for a device whose session is not stored, requests for the manager that have nothing to do with it are dropped |
| `RelayForgotten.OneDeviceCostsOthers` | modules/stream-manager/src/router.cpp:301-336 | the run from the start: a manager and a device connect and the connection of the device ends with an error |
| `RelayForgotten.ReconnectingDoesNotHelp` | modules/stream-platform/src/managers.cpp:31-33 | a manager that lost its connection stays registered under the dead session however often it connects again, until it is deregistered or deleted |
| `RelayProgress.HandlingWeighsLess` | modules/stream-manager/src/router.cpp:56-299 | every handler but the two authentications, called as methods, brings a request closer to its answer, whatever clients send |
| `RelayProgress.HopsAreBounded` | modules/stream-manager/src/router.cpp:56-299 | in every run n requests with r calls of an authentication account for at most 34 (n + r) hops |
| `RelayProgress.StrictHopsAreBounded` | modules/stream-manager/src/router.cpp:56-299 | in strict runs there are no such calls, so n requests have at most 34 n hops and none circles |
| `RelayCircles.AuthenticationCircles` | modules/stream-manager/src/router.cpp:200-225 | a call of `users.auth` with the profile key has more hops than any number, so the calls have to be counted |
| `RelayHistory.StatusIsLastCommand` | modules/stream-device/src/control.cpp:24-144 | in every run a device is on if and only if the last action delivered to it, other than the query, is `on`; before any it is off |
| `RelayHistory.StatusIsAnswered` | modules/stream-device/src/control.cpp:24-144 | the query is answered with that status, an action with true and a notification of what was commanded, under the id of the request and without an error |
| `RelayRegistered.ManagersAreRegistered` | modules/stream-platform/src/managers.cpp:31-37 | in every run the registry of the platform holds exactly the first session of a manager that came since it last left, as told by the steps of the run |
| `RelayRegistered.DevicesAreRegistered` | modules/stream-manager/src/devices.cpp:34-46 | the same for the devices of a manager: a device has to name actions or variables, all of them texts, and its database has to know it |
| `RelayRegistered.ListenersAreListening` | modules/stream-manager/src/subscriptions.cpp:359-504 | in every run the listeners of a device are, each once, exactly those sessions that subscribed with access to it and have not unsubscribed since |
| `RelayRegistered.ListenersAreNotified` | modules/stream-manager/src/subscriptions.cpp:507-539 | a notification reaches each of these once, unchanged but for the mark of the listener, and nobody else |
| `RelayAuthority.RunIsBacked` | modules/stream-manager/src/router.cpp:56-299 | the invariant behind the next seven theorems: in every run each packet in flight rests on what clients sent, databases confirmed and registries held, and each cached key on a confirmation |
| `RelayAuthority.TasksAreSent` | modules/stream-platform/src/managers.cpp:337-384 | in every run a request that a handler works on was sent by the session that it will be answered on, with the same id, method, parameters and keys, but for the parameters of the last query of `subscriptions.devices` |
| `RelayAuthority.RequestsReachTheirManager` | modules/stream-platform/src/managers.cpp:337-384 | in strict runs a request comes to the manager that its client named, or to whose listener its client is connected |
| `RelayAuthority.ServiceNeedsPassword` | modules/stream-manager/src/users.cpp:268-362 | in every run whoever gets behind `users.auth` has the profile key of the manager, or a key whose second part was the password in the database at some delivery of `users.auth`; only the former counts as an administrator |
| `RelayAuthority.PlatformNeedsPassword` | modules/stream-platform/src/profile.cpp:144-235 | the same for `profile.auth` of the platform |
| `RelayAuthority.CallsArePermitted` | modules/stream-manager/src/router.cpp:200-299 | in every run a handler works for guests on two methods only, for users on the methods of users only, and `devices.request` only for users whom the database gave a group of the device, or with the profile key |
| `RelayAuthority.CommandsAreAsked` | modules/stream-manager/src/devices.cpp:472-529 | in every run whatever a device is told to do was asked for by the client that it will answer, under that id and that action, for a device registered under this session, with the profile key or with a confirmed key and a group of the device |
| `RelayAuthority.CommandsAreExact` | modules/stream-manager/src/devices.cpp:491 | in strict runs the command is `control.` and the name exactly, and the session is one of the device asked for |
| `RelayAdmission.CacheIsRemembered` | modules/stream-manager/src/users.cpp:18-54 | in every run the cache of a manager holds exactly the keys that its database confirmed and that were not forgotten since |
| `RelayAdmission.ProfileCacheIsVouched` | modules/stream-platform/src/profile.cpp:18-35 | the same for the cache of the platform, which forgets nothing |
| `RelayAdmission.UserLetInIff` | modules/stream-manager/src/users.cpp:268-362 | `users.auth` passes a task on if and only if its key is the profile key, is in the cache, or has the password that the database has for its login; any other key with a dot gets exactly one error and nothing else |
| `RelayAdmission.ProfileLetInIff` | modules/stream-platform/src/profile.cpp:144-235 | the same for `profile.auth` |
| `RelayAdmission.MethodPermittedIff` | modules/stream-manager/src/router.cpp:200-299 | a handler that exists is reached if and only if the key is the profile key or the method is one of eight; otherwise there is one error |
| `RelayAdmission.DeviceAccessIff` | modules/stream-manager/src/subscriptions.cpp:250-357 | a device is asked if and only if the database counts a group of the user among those of the device, or the key is the profile key; otherwise access is denied |
| `RelayAdmission.GuestIff` | modules/stream-manager/src/router.cpp:77-150 | without a key a request gets to a handler if and only if it is `users.login` or `manager.info`; otherwise access is denied |
| `RelayAdmission.PlatformGuestIff` | modules/stream-platform/src/router.cpp:78-140 | the same for the platform, for signing up, logging in and information |
| `RelayAdmission.SubscribingIsAnswered` | modules/stream-manager/src/subscriptions.cpp:359-451 | in every run a subscription is answered true without an error if and only if the session may listen and does not listen yet |
| `RelayAdmission.UnsubscribingIsAnswered` | modules/stream-manager/src/subscriptions.cpp:453-504 | the answer to the end of a subscription has no error if and only if the session listens |
| `RelayAdmission.ConnectingIsAnswered` | modules/stream-manager/src/devices.cpp:361-436 | a device is told true without an error if and only if it is registered by this, or was already |
| `RelayAnswers.AnswersAreMade` | modules/stream-manager/src/devices.cpp:531-566 | in every run an answer written to a session is, but for its metadata, word for word one that a handler made of a request for that session, or one that a client claimed for it; the same for all that is in flight, notifications included |
| `RelayServices.Managers.Connect` | modules/stream-platform/src/managers.cpp:246-299 | the handler over its registry is a step of the relay: it sends what the machine sends, and its registry stays that of the machine; the first session of a manager stays |
| `RelayServices.Managers.Delete` | modules/stream-platform/src/managers.cpp:116-194 | the handler is a step of the relay: a registered manager is told first, then erased, and the client is answered last |
| `RelayServices.Managers.Disconnect` | modules/stream-platform/src/managers.cpp:301-335 | the same for the handler that deregisters, which answers nothing |
| `RelayServices.Managers.Request` | modules/stream-platform/src/managers.cpp:337-384 | the handler sends what the machine sends for the packet |
| `RelayServices.Devices.AddRegDevice` | modules/stream-manager/src/devices.cpp:34-40 | three times `emplace` register what the machine registers, keep the first registration, and leave the three registries with the same devices |
| `RelayServices.Devices.Connect` | modules/stream-manager/src/devices.cpp:361-436 | the handler, loops included, is a step of the relay: a device is registered only with a successful answer, and not when an action is no text |
| `RelayServices.Devices.Disconnect` | modules/stream-manager/src/devices.cpp:438-470 | the handler is a step of the relay, in all three registries |
| `RelayServices.Devices.Request` | modules/stream-manager/src/devices.cpp:472-529 | the handler sends what the machine sends for the packet: the action asked for, by `RelayAuthority.CommandsAreAsked` |
| `RelayServices.Devices.Response` | modules/stream-manager/src/devices.cpp:531-566 | the handler sends what the machine sends for the packet |
| `RelayServices.Devices.Notify` | modules/stream-manager/src/devices.cpp:568-602 | the handler sends what the machine sends for the packet |
| `RelayServices.Subscriptions.On` | modules/stream-manager/src/subscriptions.cpp:359-451 | the handler is a step of the relay: a listener is entered once, and every refusal is given when the machine gives it |
| `RelayServices.Subscriptions.Off` | modules/stream-manager/src/subscriptions.cpp:453-504 | the handler is a step of the relay: a listener is removed; for one that is not there the answer holds an error and a result |
| `RelayServices.Subscriptions.Emit` | modules/stream-manager/src/subscriptions.cpp:507-539 | marking one map again for each listener sends the copies that the machine sends |
| `RelayServices.ControlService.Handle` | modules/stream-device/src/control.cpp:24-144 | the actions are steps of the relay: they set the status and report it, as `RelayHistory.StatusIsAnswered` says |
| `RelayServices.WsListener.Accept` | modules/stream-providers/src/ws/ws_listener.cpp:65-79 | the accepted session is what the machine opens |
| `RelayServices.WsListener.Write` | modules/stream-providers/src/ws/ws_listener.cpp:81-102 | a frame goes to every pipe exactly when the machine pipes it to the platform, and otherwise to the stored session only |
| `Sessions.HttpSession.constructor` | modules/stream-providers/src/http/http_session.cpp:17-41 | a session starts with an empty queue and one read outstanding |
| `Sessions.HttpSession.Enqueue` | modules/stream-providers/src/http/http_session.hpp:46-79 | a response is queued, and written at once if it is alone |
| `Sessions.HttpSession.OnRead` | modules/stream-providers/src/http/http_session.cpp:67-93 | a read is outstanding exactly with room for an answer, that is with fewer than 8 queued; writes exactly with something queued, answers in request order |
| `Sessions.HttpSession.QueueOnWrite` | modules/stream-providers/src/http/http_session.cpp:154-161 | the next response is started, and the caller learns whether the queue was full |
| `Sessions.HttpSession.OnWrite` | modules/stream-providers/src/http/http_session.cpp:95-114 | the same after a completed write, a failed one or a close |
| `Sessions.HttpSession.AnswersInOrder` | modules/stream-providers/src/http/http_session.cpp:67-114 | the i-th response sent answers the i-th request |
| `Sessions.WsSession.Write` | modules/stream-providers/src/ws/ws_session.cpp:140-161 | a write posts a task to the strand |
| `Sessions.WsSession.RunPosted` | modules/stream-providers/src/ws/ws_session.cpp:143-160 | the task queues the frame and starts a write if none is in progress |
| `Sessions.WsSession.OnWrite` | modules/stream-providers/src/ws/ws_session.cpp:12-35 | completed and queued frames are the posted ones in their order, and one write is outstanding exactly with a frame queued, until a write fails |

## Left out

- Reals and integers beyond 32 bits: `strtof` and the stream's precision are not part of this model, and `atoi` is not defined there.
- Malformed JSON that runs past the end of the text: the source reads beyond its buffer there, so the specification functions say `Undefined`.
- The conversion from UTF-16 to UTF-8: a library call, and a parameter of every theorem.
- JsonParserLoops.Parse: a nested container is filled through a reference in the source; the model passes it by value and `FilledInPlace` says that this is the same.
- The truncation of an array size to a 32-bit index in the parser: arrays of more than 2^32 elements do not fit the texts considered.
- File input, `get_for_path`, `merge` and iteration over maps: the nodes do not use them for messages.
- More than one worker: the cache of a mailbox is declared not to be thread-safe, and two workers could run one actor at once.
- `launch` without `hide`: it runs an actor on the calling thread, beside the worker.
- Workers.Worker.DrainQueue: starts with no submit in flight, and assumes handlers that send nothing and a positive throughput; `RuntimeDrain.TurnsAreBounded` has submits in flight, and `Turn` says that the work does not get smaller with throughput 0.
- Workers.Worker.ActorRun: no sender interferes with the loops in this class; interference is covered by the machine, for which `RunIsBounded` and the invariant hold.
- Spurious wakeups, the mutexes and condition variables themselves: each critical section is one step.
- Base64Loops.Decode: `isalnum` is taken in the "C" locale, and lengths beyond the range of `int` are not modelled.
- Groups.Cooperation.CreateGroup: the names of services are distinct; a second group of one name would be built and then not kept.
- The messages that groups send besides contacts (`add_channel`), and what an actor does with a contact.
- Graph.Node: the vertices are values inside the vector, so updating a vertex in place is replacing it.
- `std::binary_search`, `std::upper_bound` and `std::lower_bound`: library calls, given by what they find.
- What the databases hold: a handler that queries one answers with any rows, any count or a failure.
- What the list, detail, add and delete handlers of the platform and the manager answer: after their parameters have been read, each answers once with any rows or a failure.
- Methods of a device other than its three actions: the device answers them with an error or not at all.
- A user or profile key without a dot: the source then reads beyond the parts of the key when it compares the password, and the model loses the request.
- Which cached key of a login `users.delete` forgets: the order of a hash map; that any key is forgotten is a step that may be taken at any time.
- The trusted addresses that adding and deleting a manager tell the HTTP server of the platform.
- Exceptions: a handler throws on a frame with fields of other types, and the exception leaves the worker and ends its node; the model loses the packet and goes on.
- What managers and devices send on their own behalf: they connect and disconnect by the steps that register, and a device sends what its control service sends.
- RelayShape.UserRequest: with the profile key of a manager only the methods of users are typed; the calls of internal handlers that it also allows are covered by the theorems about all runs.
- RelayLinks.LinkSurvivesIff: for strict runs from a quiet state; a response of a client may also close a connection that it names.
- RelayLosses.NothingLostIff: for strict runs from a quiet state, because a request that is not typed is dropped by the handler that throws on it.
- RelayProgress.StrictHopsAreBounded: for strict runs; `RelayProgress.HopsAreBounded` is for all.
- The order in which frames leave one connection: packets in flight are delivered in any order.
- Sessions.HttpSession.OnRead: the handler answers each request with one `send` while it runs, as the file server does; `write` from other actors is not modelled.
- Sockets, strands, timers, the web-socket upgrade and ping states: only starting and completing of reads and writes is modelled.
- Configuration files, logging, the broker, settings and the example client.
