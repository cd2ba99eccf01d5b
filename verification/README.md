# AppChat: a verified model

AppChat is a chat server and its client. Clients log in, join rooms and send lines of text; the
server broadcasts every line to the room's subscribers, keeps the room's history in memory and in a
table, and talks to clients in framed Protocol Buffers messages. This project models that behaviour
in Dafny and proves what it guarantees over whole runs. `dafny verify dfyconfig.toml` checks it.

## How the model is built

| file | what it holds |
|---|---|
| `Basics.dfy`, `Wire.dfy`, `Messages.dfy` | bytes, the protobuf encoding as a list of records, the messages of the three `.proto` files |
| `MsgFactory.dfy` | message builders, the 19-byte header slot, framed serialisation into a buffer |
| `WireFormat.dfy` | the same bytes in literal numbers, without reference to a decoder |
| `ServerReader.dfy`, `ChatClient.dfy` | the two header-then-body read loops |
| `SendQueue.dfy` | the outgoing queue that server and client both use |
| `Rooms.dfy`, `Accounts.dfy` | the server's rooms, memberships and tables as one state, and each operation on it |
| `RoomProofs.dfy`, `RoomLaws.dfy` | what the operations keep and guarantee |
| `Notices.dfy`, `Answers.dfy` | what notices say, and how each request is answered |
| `Server.dfy`, `ServerProofs.dfy`, `ServerLaws.dfy` | the server as a step system and what holds in every reachable state |
| `SecondLogin.dfy` | a run in which a second login duplicates messages |
| `TextFlow.dfy` | where every received text goes and when a sender's order is kept |
| `EndToEnd.dfy` | server room, queue, byte stream and client put together, in both directions |
| `Origins.dfy` | where the lines a client remembers come from |
| `ServerObjects.dfy`, `ServerManager.dfy`, `RequestHandlers.dfy`, `ClientObjects.dfy` | the classes, with the fields the code updates in place, each method proved against the operation it implements |

The step system has a multiset of posted jobs. A request that is read posts one; the thread pool
picks any of them at any time; connections are accepted, dropped and fail to be written to in
between. Nothing is assumed about the order.

What the code relies on without enforcing it is explicit in the model:

- Handlers are atomic: one step runs one handler. The manager's maps have no lock in the code.
- A connection does not join a room while it is still subscribed to it under another client id, which a
  second login can bring about. Only the claim about what that connection was handed for that room needs
  this (`SteadyRunAt`), whatever it does elsewhere and whatever others do, and
  `ServerProofs.SteadyExactlyAt` shows that it is the exact condition: at every point of a run any texts
  that may follow reach the connection in the room's one order if and only if it never does that. Who
  joins a room at most once never does it (`ServerProofs.OneJoinSuffices`), so nothing is assumed
  there. The login itself is harmless (`RoomLaws.ReloginKeeps`); `SecondLogin.ReloginDuplicates` is a run
  in which the second join duplicates messages.
- The pool may run two pending texts of one sender in either order. A sender keeps its order in a room
  exactly by having no two different texts for it pending (`TextFlow.SenderOrderExactly`).
- Subscribers are keyed by client id and the first connection under an id stays.
- Login, registration and join responses are written past the queue. They may fall anywhere between the
  queued lines; each frame is assumed to be written in one piece.
- Strings are byte sequences. Serialisation is modelled for messages of any size, a body beyond
  protobuf's limit of 2^31 - 1 bytes staying zero; decoding claims are for messages within the limit.
- The id counter stays below the int32 limit (`Accounts.CanRegister`).

Where code and other material disagree the code is followed: `create_header` writes version 1 although
`PROTOCOL_VERS` is 2 (src/protocol/include/protocol/command_table.h:15), and the client takes its id
after a registration from the wrong member of the response and so always gets 0.

## Model

| member | source | states |
|---|---|---|
| Wire.VarintRoundTrip | src/protocol/include/protocol/msgfactory.cpp:135-153 | a number below 128^limit is read back from its varint whatever follows, with the exact number of bytes taken |
| Wire.VarintSizeCorrect | src/protocol/include/protocol/msgfactory.cpp:137-138 | the size computed by thresholds is the number of bytes written, for every 64-bit number |
| Wire.Int32RoundTrip | src/protocol/include/protocol/proto/response.proto:10-15 | every int32 survives sign extension and truncation, and every negative one takes ten bytes |
| Wire.FieldsThenTail | src/protocol/include/protocol/msgfactory.cpp:139-140 | scanning encoded records followed by any bytes yields the records and then what those bytes scan to |
| Wire.FieldsRoundTrip | src/protocol/include/protocol/msgfactory.cpp:139-140 | any list of well-formed records is read back exactly |
| Wire.FieldsSizeCorrect | src/protocol/include/protocol/msgfactory.cpp:137-138 | the computed size of any list of records is the number of bytes produced |
| Messages.RequestRoundTrip | src/protocol/include/protocol/msgfactory.cpp:9-55 | every request value survives encode and parse in exactly its computed size; only the empty one takes no bytes, any other at least two |
| Messages.ResponseRoundTrip | src/protocol/include/protocol/msgfactory.cpp:69-133 | the same for every response value, with default fields omitted and negative ids sign-extended |
| Messages.MessageThenTail | src/server/connection/connection.cpp:74-82 | whatever bytes follow a message, the parser goes on with what the message left |
| Messages.ConcatenationMerges | src/protocol/include/protocol/proto/request.proto:25-32 | two messages one after the other parse as one: the same member is merged, another replaces it |
| Messages.UnknownIsSkipped | src/protocol/include/protocol/proto/request.proto:25-32 | a record that is none of the members is skipped |
| Messages.FaultAfterMessage | src/server/connection/connection.cpp:74-82 | a fault after a message fails the parse and keeps the message |
| MsgFactory.HeaderSize | src/protocol/include/protocol/msgfactory.cpp:57-67 | an encoded header has 19 bytes if and only if version, command and length are all nonzero |
| MsgFactory.HeaderSlotParses | src/protocol/include/protocol/msgfactory.cpp:135-143 | a peer reading the fixed 19 bytes gets the header back if and only if no field is zero; the zero padding makes any other fail |
| MsgFactory.FrameParts | src/protocol/include/protocol/msgfactory.cpp:145-153 | every frame with a command and a body starts with 19 bytes that parse to its own command and body length |
| MsgFactory.WriteAt | src/protocol/include/protocol/msgfactory.cpp:139-140 | writing into the buffer changes exactly the bytes at that place |
| MsgFactory.SerializeResponse | src/protocol/include/protocol/msgfactory.cpp:135-143 | for a response of any size the filled buffer is the header slot stamped with the body's size, then the body, or zeros if it is beyond the limit |
| MsgFactory.RawIsFrame | src/protocol/include/protocol/msgfactory.cpp:135-153 | for every body within the limit the buffer is exactly the frame the reader expects |
| MsgFactory.SerializeRequest | src/protocol/include/protocol/msgfactory.cpp:145-153 | the same for requests |
| MsgFactory.LoginResponsesFit | src/protocol/include/protocol/msgfactory.cpp:69-103 | login and registration responses can be framed for every client id |
| MsgFactory.JoinResponseFits | src/protocol/include/protocol/msgfactory.cpp:118-133 | join responses can be framed for every room and outcome |
| MsgFactory.JoinRequestFits | src/protocol/include/protocol/msgfactory.cpp:33-42 | join requests can be framed for every room |
| WireFormat.VarintBytes | src/protocol/include/protocol/msgfactory.cpp:135-153 | every varint has the continuation bits, the seven-bit groups low first and no empty last group |
| WireFormat.VarintIsUnique | src/protocol/include/protocol/msgfactory.cpp:135-153 | a number has one such encoding only |
| WireFormat.FixedBytes | src/protocol/include/protocol/msgfactory.cpp:135-153 | fixed numbers are written low byte first |
| WireFormat.TagBytes | src/protocol/include/protocol/proto/request.proto:5-24 | the tag byte of every string and number field, with default values left out |
| WireFormat.RequestBytes | src/protocol/include/protocol/proto/request.proto:5-32 | every request byte by byte with the schema's field numbers |
| WireFormat.ResponseBytes | src/protocol/include/protocol/proto/response.proto:5-42 | every response byte by byte with the schema's field numbers |
| WireFormat.BuiltResponses | src/protocol/include/protocol/msgfactory.cpp:69-133 | the factory's responses byte by byte, with OK as 1 and FAIL left out |
| WireFormat.SampleRequests | src/protocol/include/protocol/proto/request.proto:5-32 | one request of each kind in literal bytes |
| WireFormat.SampleAccepted | src/protocol/include/protocol/proto/response.proto:5-42 | one OK response of each kind and a text in literal bytes |
| WireFormat.SampleRefused | src/protocol/include/protocol/proto/response.proto:5-42 | one FAIL response of each kind in literal bytes |
| WireFormat.HeaderBytes | src/protocol/include/protocol/msgfactory.cpp:57-67 | the 19 header bytes for every command and length |
| WireFormat.RequestFrameBytes | src/protocol/include/protocol/command_table.h:34-45 | every request frame with the number of its command |
| WireFormat.ResponseFrameBytes | src/protocol/include/protocol/command_table.h:34-45 | every response frame with the number of its command |
| WireFormat.SampleFrame | src/protocol/include/protocol/msgfactory.cpp:145-153 | a whole text request frame in literal bytes |
| ServerReader.ReadLoop.DoParsePbHeader | src/server/connection/connection.cpp:52-71 | the handler takes its read off the outstanding ones and issues the body read, another header read, or nothing after an error |
| ServerReader.ReadLoop.ProcessMsg | src/server/connection/connection.cpp:74-121 | the handler posts what the command selects, parsed or not, and issues the next header read |
| ServerReader.ReadLoopRuns | src/server/connection/connection.cpp:42-121 | in every run at most one read is outstanding, none exactly after a failed header read, and there is one post per body with a known command |
| ServerReader.ConsumeIsRun | src/server/connection/connection.cpp:42-121 | reading a byte stream is a run of the completion handlers with the same posts |
| ServerReader.ReadStream | src/server/connection/connection.cpp:42-121 | the loop over an arrived stream computes the posts, the read it waits on and the bytes left |
| ServerReader.RequestDispatch | src/client/client/client.cpp:302-318 | the command of each request selects the handler that expects its content |
| ServerReader.ConsumeFrame | src/server/connection/connection.cpp:52-121 | one frame at the head of a stream becomes one post and the rest is read as if it were alone |
| ServerReader.Skipped | src/server/connection/connection.cpp:52-121 | bytes that are no header are skipped, and so is a body under an unknown command |
| ServerReader.LowBitsDecide | src/server/connection/connection.cpp:83-121 | only the low 16 bits of the command select a handler, by the numbers 1, 3, 5 and 7, whether or not the body parses |
| ServerReader.ServerReadsRequests | src/server/connection/connection.cpp:42-121 | of any part of a concatenation of request frames exactly a prefix of the requests is posted; of all of it all, with no byte left over |
| SendQueue.AddKeepsValid | src/server/connection/connection.cpp:497-503 | adding keeps: written then queued is what was added, and a write is in flight exactly when something is queued and none has failed |
| SendQueue.CompleteKeepsValid | src/server/connection/connection.cpp:505-519 | so does every completion, successful or not |
| SendQueue.CompleteFacts | src/server/connection/connection.cpp:505-519 | a completion without an error moves one message to the written ones, any other none |
| SendQueue.QueueAfter | src/server/connection/connection.cpp:497-519 | in every run the completions without an error say exactly which messages are written, queued and started; the queue is drained exactly when there were as many as additions |
| SendQueue.QueueRuns | src/client/client/client.cpp:277-300 | over all interleavings messages written followed by messages queued are the messages added, with at most one write in flight |
| SendQueue.NothingAfterFailure | src/server/connection/connection.cpp:514-517 | after a failed write no event ever starts or completes another |
| SendQueue.WireIsPrefix | src/server/connection/connection.cpp:497-519 | what can have reached the peer is a prefix of the messages added, all of them once the queue is empty |
| ChatClient.BodyMeans | src/client/client/client.cpp:122-274 | the handler a response's command selects has the effect the response is meant to have |
| ChatClient.WrongAnswer | src/client/client/client.cpp:122-244 | an answer that does not parse closes the client, one of another kind leaves it without a read |
| ChatClient.ClientStalls | src/client/client/client.cpp:60-120 | after a bad header or a command it does not read the client takes nothing more |
| ChatClient.UnparsedText | src/client/client/client.cpp:246-274 | a text frame adds a line whether or not its body parses |
| ChatClient.ClientReads | src/client/client/client.cpp:50-274 | after any part of a stream of response frames the client's history is what a first part of the responses means; after all of it, of all |
| ChatClient.AbsorbHeard | src/client/client/client.cpp:122-274 | any mix of responses adds to each room's history exactly the lines before the first refusal |
| ChatClient.ClientRemembers | src/client/client/client.cpp:50-274 | after any part of a stream of any responses the client has, for each room, a prefix of its lines before the first refusal; after all of it, all of those |
| ChatClient.ClientId | src/client/client/client.cpp:122-206 | after any stream without a refusal the client's id is that of the last login response, 0 if that was a registration |
| RoomProofs.CopiesWhenOnce | src/server/channel/channel.cpp:53-59 | a broadcast reaches a connection that is in the room under one id once, and any other not at all |
| RoomProofs.NotifyHanded | src/server/channel/channel.cpp:51-62 | what a broadcast adds to the lines of each room that each connection was handed |
| RoomProofs.NotifyKeeps | src/server/channel/channel.cpp:51-62 | a broadcast keeps index agreement, channel ids, that subscribers are accepted connections, and the archive (for notices) |
| RoomProofs.NotifyExplained | src/server/channel/channel.cpp:51-62 | after a broadcast a connection that is in a room once still has its lines of it explained by the history |
| RoomProofs.NotifyFair | src/server/channel/channel.cpp:51-62 | a broadcast keeps that claim for every connection and room, and who is in a room under how many ids |
| RoomProofs.LoadedRoom | src/server/channel/channel.h:28-37 | a new channel holds exactly the stored lines of its room, all under its own id |
| RoomProofs.JoinKeeps | src/server/channel/channels_manager.cpp:8-46 | a join keeps every room invariant, also for a client or room that is new |
| RoomProofs.JoinOnce | src/server/channel/channel.cpp:16 | after a join a connection is in a room under one id if and only if it was before and it is not the joining one that is there under another id |
| RoomProofs.JoinFair | src/server/channel/channel.cpp:4-25 | replay, subscription and notice keep the claim for every connection and room, except the joining one entering that room under a second id |
| RoomProofs.TextKeeps | src/server/connection/connection.cpp:211-228 | a text keeps every room invariant; memory and table gain the same line |
| RoomProofs.LeaveRoomsHistory | src/server/channel/channel.cpp:38-49 | leaving a list of rooms, with duplicates, adds one notice to each room the client was in |
| RoomProofs.LeaveAllEffect | src/server/channel/channels_manager.cpp:58-69 | leaving all removes the client everywhere, keeps all other memberships, adds one notice per distinct room and none elsewhere |
| RoomProofs.LeaveAllKeeps | src/server/channel/channels_manager.cpp:58-69 | and keeps the other room invariants |
| RoomProofs.LeaveAllFair | src/server/channel/channels_manager.cpp:58-69 | and the claim for every connection and room |
| Notices.DecimalReads | src/server/channel/channel.cpp:8 | every number is written so that it reads back from left to right, without a leading zero |
| Notices.NoticesSay | src/server/channel/channel.cpp:8-42 | every notice is the login, the literal phrase and a number that reads as its room |
| Notices.NoticesDiffer | src/server/channel/channel.cpp:8-42 | no join notice equals a leave notice |
| Notices.SampleNotices | src/server/channel/channel.cpp:8-42 | both notices for a login and a room in literal bytes |
| RoomLaws.JoinMembership | src/server/channel/channels_manager.cpp:8-46 | a join adds one membership and disturbs no other; the first connection under an id stays |
| RoomLaws.FreeKeeps | src/server/connection/connection.cpp:14-40 | freeing keeps every room invariant |
| RoomLaws.FreeIsComplete | src/server/connection/connection.cpp:14-40 | freeing takes the connection out of every room if and only if all its subscriptions are under the id it has |
| RoomLaws.LeaveAllHeard | src/server/channel/channel.cpp:38-49 | when a client leaves all channels everybody in a room of it, its own connection included, hears exactly one notice there and nothing elsewhere |
| RoomLaws.FreeTwice | src/server/connection/connection.cpp:14-40 | a freed client id is in no channel or index; a second free changes no channel state if and only if nobody is registered under -1 |
| RoomLaws.FreeTwiceDisturbs | src/server/connection/connection.cpp:14-40 | after a refused login and a join under -1, freeing another connection twice takes that membership away |
| RoomLaws.ReloginKeeps | src/server/connection/connection.cpp:129-131 | a login changes no subscription and no delivery, whatever id it gives |
| RoomLaws.SafeExactly | src/server/channel/channel.cpp:51-62 | from a state on, every list of texts reaches a connection in a room's one order if and only if it holds there and the connection is not in the room under two ids |
| RoomLaws.JoinSafe | src/server/channel/channel.cpp:4-25 | a join keeps that for every connection and room, and for the joining one in that room if and only if it is not there under another id |
| RoomLaws.ManagerLeaveAgrees | src/server/channel/channels_manager.cpp:71-93 | the unused leave keeps the indexes in agreement if and only if it does nothing or the room is the client's only one |
| RoomLaws.ManagerLeaveBreaks | src/server/channel/channels_manager.cpp:71-93 | two joins and one such leave break the agreement |
| RoomLaws.LiveEndsWithHistory | src/server/channel/channel.cpp:11-22 | what an explained subscriber was handed ends with the whole history, and is that history after one join |
| RoomLaws.OneJoinIsPrefix | src/server/channel/channel.cpp:11-22 | who joined at most once was handed a prefix of the history |
| RoomLaws.SayAllHanded | src/server/channel/channels_manager.cpp:48-56 | what any list of texts adds to each connection's lines of each room |
| RoomLaws.TextsReorder | src/server/connection/connection.cpp:211-228 | orders of texts that agree room by room give the same rooms, stored lines and per-room deliveries, from any state |
| Accounts.LookupIsUnique | src/server/storage/database.cpp:164-228 | where a login has one row the last-match scans find it, and the password decides, whatever else is in the table |
| Accounts.FreeLogin | src/server/storage/database.cpp:164-194 | the scan reports a login free if and only if no row has it |
| Accounts.RegisterKeepsLogins | src/server/connection/connection.cpp:151-166 | registration keeps logins distinct whatever the counter and the stored ids |
| Accounts.RegisterKeepsRow | src/server/connection/connection.cpp:151-166 | registration never disturbs a login that has one row |
| Accounts.RegisterKeepsSound | src/server/connection/connection.cpp:151-166 | registration keeps logins and ids distinct, positive and within the counter, and succeeds exactly for a new login |
| Accounts.RegisterDistinctIds | src/server/connection/connection.h:96-99 | a registration keeps ids distinct if and only if the counter's next value is not in the table |
| Accounts.RestartRepeatsId | src/server/connection/connection.h:96-99 | after a restart the first registration repeats an id |
| Answers.ScansFindLast | src/server/storage/database.cpp:164-228 | on any table the scans find the last matching row, and -1 if there is none |
| Answers.LoginRefused | src/server/connection/connection.cpp:123-149 | a login no row matches is answered with -1 and leaves the connection under that name and id, nothing else changed |
| Answers.LoginAccepted | src/server/connection/connection.cpp:123-149 | a login is answered with the id of the last matching row, which the connection takes with the name |
| Answers.RegistrationAccepted | src/server/connection/connection.cpp:151-186 | a new login is stored with the next id, answered with it, and the connection takes both |
| Answers.RegistrationRefused | src/server/connection/connection.cpp:151-186 | a taken login stores nothing, is answered with -1 and leaves the connection with that id |
| Answers.AnswersWritten | src/server/connection/connection.cpp:230-283 | the response each posted answer writes, with its status number |
| Answers.JoinAnswered | src/server/connection/connection.cpp:188-209 | a join is answered with the room asked for, and what it leaves in the connection and the client indexes |
| Answers.FreedConnection | src/server/connection/connection.cpp:14-40 | the fields of a freed connection, its name in literal bytes |
| Answers.WrongContent | src/server/connection/connection.cpp:123-228 | a request of the wrong kind frees on login and registration and is ignored on join and text |
| Answers.EventsMean | src/server/connection/connection.cpp:14-71 | a failed read or write takes the client out of every channel and index; a new connection is blank; reading and a completed write change no room |
| Answers.PoolBalance | src/server/connection/connection.cpp:83-115 | a task run leaves the pool once, and only what is received or posted enters it |
| Answers.IdsAgree | src/client/client/client.cpp:122-163 | the answer to a login gives any waiting client exactly the id the login gave its connection; a refusal closes it |
| ServerProofs.RunExtends | src/server/channel/channels_manager.cpp:26-40 | in every run channels are never replaced and histories, tables and records only grow |
| ServerProofs.RunsAreConsistent | src/server/channel/channels_manager.cpp:8-69 | every run keeps index agreement, channel ids, that only accepted connections are subscribed, and the equality of memory without notices and stored lines |
| ServerProofs.ReachableIsConsistent | src/server/channel/channels_manager.cpp:8-69 | so every reachable state has them, from any stored history |
| ServerProofs.SteadyRunsAreFair | src/server/channel/channel.cpp:4-62 | in every run in which a connection does not enter a room under a second id its lines of the room are one prefix of the history per join, the last one whole while subscribed, whatever else happens |
| ServerProofs.SteadyExactlyAt | src/server/channel/channel.cpp:4-62 | for each connection and room: at every point of a run the one order is safe, whatever is said next, if and only if the connection has no such join of the room |
| ServerProofs.StartedExactlyAt | src/server/channel/channel.cpp:4-62 | so for every run of a server just started on any tables |
| ServerProofs.SteadyExactly | src/server/channel/channel.cpp:4-62 | for all connections and rooms together: always safe if and only if nobody has such a join |
| ServerProofs.StartedExactly | src/server/channel/channel.cpp:4-62 | so for every run of a server just started on any tables |
| ServerProofs.OneJoinIsSteady | src/server/channel/channel.cpp:4-25 | who joined a room at most once by the end of a run never entered it under a second id |
| ServerProofs.OneOrderForAll | src/server/channel/channel.cpp:4-62 | in every state reached without such a join of this connection and room, a subscriber was handed the whole history last; exactly it after one join |
| ServerProofs.OneJoinSuffices | src/server/channel/channel.cpp:4-62 | for who joined at most once that is every reachable state |
| ServerProofs.ConnectionsAgree | src/server/channel/channel.cpp:4-62 | in every reachable state, of two connections that joined at most once one was handed a prefix of the other's lines; two subscribers the same |
| ServerProofs.SubscribersAgree | src/server/channel/channel.cpp:4-62 | two subscribers without such a join were both handed the whole history last, however often they joined |
| SecondLogin.ReloginDuplicates | src/server/connection/connection.cpp:129-131 | a run of a server with one account in which a join after a login doubles deliveries and breaks the order claim |
| ServerLaws.RunsKeepQueues | src/server/connection/connection.cpp:489-519 | in every run each queue has written and holds the frames of exactly the lines handed over, in order |
| ServerLaws.LinesWritten | src/server/connection/connection.cpp:505-519 | in every run the completions without an error on a connection say exactly which of its lines are written and which queued |
| ServerLaws.StepOnAccounts | src/server/connection/connection.cpp:123-186 | no event but a registration changes the login table, and that as specified |
| ServerLaws.RunsKeepLogins | src/server/connection/connection.cpp:151-186 | every run from a table with distinct logins, also after a restart, keeps them distinct |
| ServerLaws.FromAnyTable | src/server/storage/database.cpp:164-228 | from any such table, in every later state, the scans find exactly the one row of a login |
| ServerLaws.RunsKeepRow | src/server/connection/connection.cpp:151-186 | a row that is the only one of its login stays so in every run |
| ServerLaws.RunsKeepAccounts | src/server/connection/connection.cpp:151-186 | while ids come from the counter every run also keeps them distinct, positive and within it |
| ServerLaws.FromEmptyTable | src/server/connection/connection.h:96-99 | from an empty login table every run keeps it sound, and the scans find exactly the one row of a login |
| ServerLaws.RegistrationLasts | src/server/connection/connection.cpp:123-186 | after a registration on any table, also after a restart, in every later state and on every connection, a login task with its password posts the same id with OK, with another FAIL, and registering again posts FAIL with the table untouched |
| ServerLaws.RunsAnswerJoins | src/server/connection/connection.cpp:188-209 | in every run the joins of each room by each connection equal the OK responses naming it, sent or posted, and none is refused |
| ServerLaws.ReachableIsSound | src/server/connection/connection.cpp:188-209 | both hold in every reachable state |
| ServerLaws.ClientTasksAreRight | src/server/connection/connection.cpp:83-228 | no request a client can build reaches a handler's wrong-content branch |
| TextFlow.TextsConserved | src/server/connection/connection.cpp:211-228 | in every run the table gains the lines of the text tasks run, in that order, and each is pending as often as received and not run |
| TextFlow.NoLineIsLost | src/server/connection/connection.cpp:83-115 | stored lines and pending texts are, as multisets, those at the start and the texts received |
| TextFlow.PoolReorders | src/server/connection/connection.cpp:83-115 | for any two lines some run stores them against the order in which one connection sent them |
| TextFlow.InTurnExactly | src/server/connection/connection.cpp:83-115 | at every point of a run whichever text of a sender and room the pool picks is the one received first, if and only if no text arrives while a different one of that sender and room is pending |
| TextFlow.SenderOrderExactly | src/server/connection/connection.cpp:83-115 | so for every run of a server just started, every sender and every room |
| TextFlow.SenderKeepsOrder | src/server/connection/connection.cpp:211-228 | such a sender's texts are run and stored in the order received, all of them once none is pending |
| EndToEnd.MergedLines | src/server/connection/connection.cpp:230-283 | responses written past the queue change neither the lines on the socket nor their order |
| EndToEnd.StartedLines | src/server/connection/connection.cpp:489-519 | the queued writes started are the frames of the first lines handed over, of all of them when nothing is queued |
| EndToEnd.ClientFollowsServer | src/client/client/client.cpp:246-274 | in every reachable state, however direct responses fall between queued lines, the client's history of a room is a prefix of the lines handed over for it, and equal once all has arrived and no login was refused |
| EndToEnd.ClientEqualsRoom | src/client/client/client.cpp:246-274 | in every reachable state a subscribed client that joined once, was admitted and received all that was sent remembers exactly the server's history of the room |
| EndToEnd.ServerFollowsClient | src/client/client/client.cpp:277-318 | of what a client queued after its login request the server has posted a prefix in order, all of it once it arrived |
| EndToEnd.StreamIsRun | src/server/connection/connection.cpp:42-121 | whatever bytes arrive, what the reader makes of them is a run of receive events that changes nothing but the pool |
| EndToEnd.ServerRunsRequests | src/server/connection/connection.cpp:74-121 | receiving any part of a client's requests is a run that posts the first of them, all once everything arrived |
| Origins.RunsAreGenuine | src/server/channel/channel.cpp:4-62 | in every run each line handed over is in its room's history, and the notices there are join and leave notices |
| Origins.NothingInvented | src/client/client/client.cpp:246-274 | each line a client remembers of a room was stored at the start, received as a text, or is a join or leave notice of the room |
| ServerObjects.Database.GetHistory | src/server/storage/database.cpp:103-146 | the row loop returns the stored lines of the room in insertion order |
| ServerObjects.Database.SaveTextMsg | src/server/storage/database.cpp:78-101 | the table gains the line at its end |
| ServerObjects.Database.AddLogins | src/server/storage/database.cpp:148-162 | the login table gains the row at its end |
| ServerObjects.Database.GetLoginId | src/server/storage/database.cpp:164-194 | the row loop returns the id of the last row with the login, or -1 |
| ServerObjects.Database.CheckClient | src/server/storage/database.cpp:196-228 | the row loop returns the id of the last row with login and password, or -1 |
| ServerObjects.Connection.AddMsgSendQueue | src/server/connection/connection.cpp:497-503 | the queue behaves as the queue model's addition |
| ServerObjects.Connection.WriteCompleted | src/server/connection/connection.cpp:505-519 | the completion handler behaves as the queue model's completion |
| ServerObjects.Connection.SendMsgToClient | src/server/connection/connection.cpp:489-495 | the line is framed and queued, and the queue still carries exactly the lines handed over |
| ServerObjects.Connection.SendResponse | src/server/connection/connection.cpp:230-283 | the bytes written are the response's frame and the queue is untouched |
| ServerObjects.Channel.constructor | src/server/channel/channel.h:28-37 | a channel starts with the stored lines of its room and no subscriber |
| ServerObjects.Channel.Notification | src/server/channel/channel.cpp:51-62 | in whatever order subscribers are visited, each entry is sent the line once and the history gains it |
| ServerObjects.Channel.Join | src/server/channel/channel.cpp:4-25 | replay, first-wins subscription, then the notice to everyone |
| ServerObjects.Channel.Leave | src/server/channel/channel.cpp:38-49 | a subscriber's leave notifies everyone and removes the entry; anyone else's changes nothing |
| ServerManager.ChannelsManager.Join | src/server/channel/channels_manager.cpp:8-46 | the three maps, the channels and the connections end as the join operation says, and the result is true |
| ServerManager.ChannelsManager.SendToChannel | src/server/channel/channels_manager.cpp:48-56 | the objects end as the broadcast operation says; an unknown room changes nothing |
| ServerManager.ChannelsManager.LeaveFromAllChannels | src/server/channel/channels_manager.cpp:58-69 | the loop over the client's list ends as the leave-all operation says |
| ServerManager.JoinSteps | src/server/channel/channels_manager.cpp:12-43 | the code's order of updates amounts to the join operation |
| RequestHandlers.ChatServer.FreeConnection | src/server/connection/connection.cpp:14-40 | the objects end as the free operation says |
| RequestHandlers.ChatServer.DoAutorisation | src/server/connection/connection.cpp:123-149 | state and posted response end as the step system says, wrong content included |
| RequestHandlers.ChatServer.GenerateClientId | src/server/connection/connection.h:96-99 | the id is the incremented counter |
| RequestHandlers.ChatServer.DoRegistration | src/server/connection/connection.cpp:151-186 | state, tables, counter and posted response end as the step system says |
| RequestHandlers.ChatServer.DoJoinRoom | src/server/connection/connection.cpp:188-209 | state and posted response end as the step system says; the response names the room just joined |
| RequestHandlers.ChatServer.DoTextMsg | src/server/connection/connection.cpp:211-228 | broadcast then store, as the step system says |
| RequestHandlers.ChatServer.SendAuto | src/server/connection/connection.cpp:230-246 | the login response for the id is written directly |
| RequestHandlers.ChatServer.SendReg | src/server/connection/connection.cpp:248-264 | the registration response for the id is written directly |
| RequestHandlers.ChatServer.SendJoin | src/server/connection/connection.cpp:266-283 | the join response is written directly |
| RequestHandlers.ChatServer.Accept | src/server/connection/connection.h:28-36 | a new connection is the accept step of the system, queues included |
| RequestHandlers.ChatServer.constructor | src/server/storage/database.cpp:25-70 | a server on any stored rows and logins is the start of the step system |
| RequestHandlers.ChatServer.ReadHeader | src/server/connection/connection.cpp:52-71 | a completed header read moves the connection's reader on, and a failed one is the drop step |
| RequestHandlers.ChatServer.Receive | src/server/connection/connection.cpp:74-121 | a completed body read moves the connection's reader on, and what it posts is the receive step, nothing if the command is unknown |
| RequestHandlers.ChatServer.Execute | src/server/connection/connection.cpp:83-115 | running any posted task takes objects, queues and pool through exactly the execute step |
| RequestHandlers.ChatServer.Drop | src/server/connection/connection.cpp:66-70 | a failed read is the drop step |
| RequestHandlers.ChatServer.WriteCompleted | src/server/connection/connection.cpp:505-519 | the completion of a write, with the free after a failure, is the written step |
| RequestHandlers.QueuesFollow | src/server/connection/connection.cpp:489-503 | queues that no write touched gained exactly the frames of the new lines |
| ClientObjects.Client.DoReadPbHeader | src/client/client/client.cpp:60-120 | the read that follows a header, or none; a failed read closes the connection |
| ClientObjects.Client.DoReadInputResponse | src/client/client/client.cpp:122-163 | id taken, connection closed or reading stopped, as the client model says; a failed read closes the connection |
| ClientObjects.Client.DoReadRegResponse | src/client/client/client.cpp:165-206 | the same for registration, with the id that is always 0; a failed read closes the connection |
| ClientObjects.Client.DoReadJoinRoomResponse | src/client/client/client.cpp:208-244 | an accepted room gets an empty history if it had none; a failed read closes the connection |
| ClientObjects.Client.DoReadEchoResponse | src/client/client/client.cpp:246-274 | the line is appended to its room's history; a failed read closes the connection |
| ClientObjects.Client.AddMsgToSend | src/client/client/client.cpp:277-284 | the client's queue behaves as the queue model's addition |
| ClientObjects.Client.WriteCompleted | src/client/client/client.cpp:286-300 | its completion handler as the queue model's completion; a failure closes the connection |
| ClientObjects.Client.ChangeRoom | src/client/client/client.cpp:302-309 | the join request is framed and queued, for every room |
| ClientObjects.Client.SendMsgToServer | src/client/client/client.cpp:311-318 | the text request with the client's login is framed and queued, whatever its size |

## Left out

- Interleaving inside a handler, mutexes, buffer and object lifetimes: a step runs a whole handler.
- Mixing inside frames: two writes on one socket at the same time may mix their bytes; the stream is modelled frame by frame.
- EndToEnd.ClientFollowsServer: excludes lines whose message exceeds protobuf's limit; their bodies are sent as zeros.
- Wire.DecodePayload: groups and tags beyond 32 bits are malformed, whereas the library skips groups and cuts tags; invalid UTF-8 is not rejected; the library's own length limit may be a few bytes lower.
- SQLite: inserts succeed and reads return rows in insertion order; SQL text, quoting, error paths and a missing database handle are not modelled.
- ClientObjects.Client.DoReadRegResponse: no agreement of the client's id with the server's, because the code reads it from the wrong member.
- The stored password field of a connection: it is written and never read.
- The older one-thread request handlers (src/server/connection/connection.cpp:288-483), which the live callback does not reach.
- `DateTime`, the `Channel` destructor, connection reuse, the user interface, logging and start-up: plain fields or plumbing.
