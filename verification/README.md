# Named pipe RPC demo: model and proofs

A Windows client and server talk over a named pipe. Clients send plain values, or create objects
of `CustomClass` on the server, call their methods and fetch serialised copies. Requests carry an
id, and responses are matched to requests by that id. The project models the whole stack, from the
bytes of an `int` to any number of clients that share one server, and proves that together they
behave like one sequential object store.

## How it is organised

| layer | files |
|---|---|
| bytes and the value codec | `Wire`, `DataSerializer`, `DataDeserializer`, `CustomClass`, `Framing`, `Requests` |
| the server: registry, interpreter, service loop | `ClassRegistry`, `ServerParser`, `Server` |
| what the server is meant to be | `ObjectStore` (a sequential store, no bytes), `ServerCorrect` (refinement) |
| the client: table, handles, request builders, loop, chunked read | `ResponseParser`, `ClassRepository`, `DemoSimulator`, `Client`, `ClientPipe` |
| the system as a transition system | `Network` (steps), `Machines` (the same steps on bytes and on abstract messages) |
| the inductive invariant | `Invariant`, `InvariantPeers`, `InvariantLinks`, `InvariantServing`, `InvariantSteps`, `NoLoss` |
| the results | `Simulation` (bytes follow messages), `Theorems` (safety), `Progress` and `DeadEnds` (steps towards a callback, and away from it for ever), `Outcomes` (which callbacks can fire, when a wait ends), `Registers` (last writer wins), `Witnesses` (concrete runs) |

Code that works by updating fields, cursors and buffers is written as classes and methods with
loops. Each method is proved against a pure function (`ScanInt`, `Serve`, `Deliver`, `Loop`, ...);
lemmas are about those functions, and say what each of them is without naming its own body
(`RestoreExactly`, `TurnExactly`, `ServeFaultsExactly`, ...). The transition system runs them:
`Network.SendIsSubmit`, `Network.WaitingTurnIsSteps`, `Network.CompletionIsTaken` and
`Network.ReconnectIsPass` tie its client steps to the client's methods, and its choice of a handle is `ClassRepositories.Choice`, which specifies
`GetClassHandleAtRandom`. Its server step is `ServerParser.Serve`, the specification of
`ServerParser.ParseRequest`, and `Machines.ServeStepIsTurn` makes it one turn of the service loop. What other threads do beside `Server.HandleClientConnection` and
`Client.Client.Start` is a parameter of these methods, and their results hold for any.

The parsers are as the code has them, off-by-one guards included. `Scan` therefore has three
outcomes: `Hit`, `Miss`, and `Fault`, which stands for leaving defined behaviour (an index out of
range, a string of negative length). `crashed` in the transition system records a fault anywhere, a
counter that passes INT_MAX included; the run is over then, because nothing is known of it any more.
`Theorems.FaultsAreOverflows` says exactly which runs end that way.

A run is any sequence of events: a client numbers and sends a request, reads the size of its handle
list, then chooses from it; a server thread serves its next request; a message is read, parsed up
to the check of the callback, and delivered; a read fails, a connection drops, a server thread
ends, a client reconnects or stops. An asynchronous client may parse what it has read in any order,
and a response that it has read may be duplicated. Commands carry arbitrary integers, doubles and
strings.

## Assumptions about the environment

- A connection carries whole messages in order, without loss while it lives.
- A request fits one server read of 4096 bytes (`Network.Buildable`); a longer one is not sent.
- One request is served as one atomic step.
- `handle_counter_` starts at 0: it has no initialiser, but it lives in a function-local static.
- The text of `this` in `PrintToString` is a parameter of each object, of at most 32 bytes.
- `typeid(CustomClass).name()` is one fixed text on both sides, and both sides store an `int` in
  the same byte order.
- The server process is not restarted.

## Where the code differs from its documentation

README.md in this section is the README of the program itself.

- README.md:90 says that a request is kept in the `ResponseParser` if it waits for a response.
  client/Client.cpp:51 registers every request, so one that does not wait stays for ever
  (`Theorems.TableContents` says exactly which ids are in the table, `Theorems.StaysForEver` that
  such a request never leaves it, and `Witnesses.PlainValueStays` gives a run).
- README.md:76 describes the deserialiser as the inverse of the serialiser. It is one except where
  `DataDeserializer.SequenceRoundTrip` and `DataDeserializer.StringRoundTripExactly` say: a bool
  before the last position, and a string whose length does not fit an `int`.
- README.md:110 and README.md:114 make the handle part of a method call and of a get. A request
  without one is rejected if and only if object 0 does not exist; otherwise it acts on object 0, and
  a setter changes it (`ServerCorrect.MissingHandleMeansZero` for any bytes,
  `ServerCorrect.HandlelessRefines` for each command with its handle left out).
- README.md:100 warns that a waiting client might hang after an error on the server. For requests
  that the client builds the server has no such error (`Theorems.RequestsAreAccepted`).
  A wait on a live connection can always be ended with the client's callback, unless it is for a
  create and the handle counter is at INT_MAX, where serving that create is undefined behaviour
  (`Outcomes.WaitEnds`, `Outcomes.FiresExactlyIf`).

## Model

| member | source | states |
|---|---|---|
| Theorems.EndToEnd | client/ResponseParser.cpp:12-69 | in every run, a success callback that fired for request k of client c saw exactly the result that the store gave when it executed that very command, of the type that the callback expects |
| Registers.CallbackSeesLastWrites | client/DemoSimulator.cpp:219-228 | the callback of a get sees the fields last set on that object, or else those that its create carried, whichever clients wrote them; every other callback sees what the last writes say |
| Registers.EveryResultFromWrites | server/CustomClassParser.cpp:116-170 | in every run each result is fixed by the last writes before it: the number of creates, the last integer and string, and whether a setter changes them |
| Registers.StoreHoldsLastWrites | common/CustomClass.cpp:18-61 | after any history each object holds the address, integer and string last written to it |
| Theorems.HistoryIsSequential | server/Server.cpp:142-152 | in every run, what the server executed is one sequential run of the object store, the registry is its final store, and each entry is a request that the server on bytes consumed when the store was the one that the entries before it lead to |
| Theorems.HistoryIsWhatIsServed | server/Server.cpp:143-152 | a serve step adds one entry, with the connection, the client and the command that its bytes encode, takes the step of the store on the registry and writes the bytes of the result back; no other event adds one |
| Theorems.EntryWasServed | server/RequestParser.cpp:12-51 | each entry of the history has the one event at which the server on bytes consumed it |
| Theorems.ExecutedOnceInOrder | server/Server.cpp:114-153 | no request is executed twice, each connection is served in the order of the ids, no handle is given out twice |
| Theorems.HistoryGrows | server/Server.cpp:142-152 | the history of executed requests only ever gets longer |
| Theorems.RealTimeOrder | client/ResponseParser.cpp:62-65 | a request whose callback has fired stands in the history before every request that any client issues afterwards |
| Theorems.FaultsAreOverflows | common/DataDeserializer.cpp:3-79 | a run leaves defined behaviour if and only if a create is served at handle counter INT_MAX or a request is numbered at id counter INT_MAX: no index leaves a message or a list, on any parser branch tried, and no string is built with a negative length |
| Theorems.HandlesAreLive | client/DemoSimulator.cpp:283-320 | registry keys are exactly 0..counter-1; every handle that a client knows, has chosen or has used in a request is one of them; a client's list has no duplicates |
| Theorems.RepliesAreSound | server/CustomClassParser.cpp:225-250 | every response on its way or read decodes, belongs to a request that waits, and, for a create request, carries a live handle |
| Theorems.RequestsAreAccepted | server/CustomClassParser.cpp:43-49 | every request on its way encodes a numbered command of its client, and the server accepts it: the invalid-handle branch is unreachable, and the one fault is a create at handle counter INT_MAX |
| Theorems.ObjectsPersist | server/ClassRegistry.h:37-59 | no later event removes a handle or puts another object behind it, and the fields differ only if a setter on that very handle was executed in between |
| Theorems.TableConserved | client/ResponseParser.cpp:56-66 | the ids handed out are exactly those in the table plus those whose callback fired, no id is in both, and each callback fired once, also when responses are duplicated |
| Theorems.TableContents | client/Client.cpp:50-51 | an id is in the table if and only if its request does not wait or its callback has not fired yet |
| Theorems.StaysForEver | client/Client.cpp:50-51 | a request that does not wait is in the table in every continuation of the run |
| Theorems.IssuedGrows | client/Client.cpp:50 | no later event renumbers or forgets a request |
| Theorems.SyncLockstep | client/Client.cpp:92-112 | a blocking client that is not waiting has nothing on its way back; one that waits for request k has at most one message on its way back, and that message decodes to id k |
| Outcomes.SyncNeverStuck | client/Client.cpp:102-109 | while a blocking client waits, some step that serves, reads, parses or delivers its reply, or fails its read, is enabled |
| Outcomes.WaitEnds | client/Client.cpp:92-112 | unless it is for a create at handle counter INT_MAX, a finite continuation of steps of the client and its own server thread ends the wait, and on a live connection it ends with the callback of that request |
| Outcomes.CallbackFires | client/Client.cpp:114-154 | for clients of either kind: if the reply is read or being delivered, or the connection lives and the handles last for the creates queued up to the request, a finite continuation of steps of the client and its server thread fires the callback |
| Outcomes.CallbackNeverFires | client/ResponseParser.cpp:56-66 | otherwise no continuation fires it, and the id stays in the table: a connection that is gone takes its undelivered replies with it |
| Outcomes.FiresExactlyIf | client/ResponseParser.cpp:56-66 | the callback of a waiting request fires in some continuation if and only if that condition holds and the run is within defined behaviour |
| Outcomes.AnyCommandCanBeSent | client/DemoSimulator.cpp:99-213 | every client that is ready can send every command that fits one read, on any object whose handle it knows |
| Progress.FiresOrCloser | client/Client.cpp:114-154 | from each state in which the callback can fire, one step fires it or decreases the steps left |
| Progress.StepKeepsOwnLinks | server/Server.cpp:166-189 | every response is on the connection that its request was written to, and every connection a client wrote to is its own |
| DeadEnds.StalledStays | server/ClassRegistry.h:43 | a request for which the handles do not last stays unserved, whatever other clients do |
| DeadEnds.LostStays | server/Server.cpp:175-184 | once its connection is gone and its reply neither read nor being delivered, no step brings the reply back |
| Theorems.NothingIsLost | client/Client.cpp:114-154 | while a connection lives, each request that waits on it is still queued, or its reply is on the way, read, or being delivered |
| Witnesses.FirstCreate | server/ClassRegistry.h:37-48 | a run exists in which a lone client creates an object and is told handle 0, for any constructor arguments |
| Witnesses.PlainValueStays | client/Client.cpp:50-51 | a client that sends one integer, which the server serves, has that request in its table in every continuation |
| Simulation.RunSimulates | client/Client.cpp:42-88 | over every run the bytes on the wire are the encodings of the abstract messages, the registry represents the store, and the invariant holds |
| Simulation.StepSimulates | server/RequestParser.cpp:12-51 | one step on bytes does to the encodings what the same step on messages does to the messages |
| Simulation.ArrivedDecodes | client/ResponseParser.cpp:12-54 | what a client has read decodes to the id and the value that the server answered |
| InvariantSteps.StepKeepsInv | client/ResponseParser.cpp:56-66 | the invariant over tables, handles, messages on the way and the store is inductive |
| InvariantSteps.StepFaults | client/DemoSimulator.cpp:283-292 | from a state that satisfies the invariant, only a counter that passes INT_MAX leaves defined behaviour |
| InvariantPeers.ChoiceIsSafe | client/DemoSimulator.cpp:283-292 | with registrations between the two snapshots, the chosen index is in range and yields a live handle |
| InvariantPeers.AnswerTyped | client/DemoSimulator.cpp:126-234 | an answer belongs to a waiting request, decodes on the client, and its callback sees the store's result with the right type |
| InvariantPeers.UndeliveredIsUnknown | client/ClassRepository.cpp:10-20 | a handle that is still to be delivered is not in the client's list, so the non-atomic check and push add no duplicate |
| InvariantPeers.FinishDelivers | client/ResponseParser.cpp:62-65 | a delivery fires one callback with the store's result and adds a created handle |
| NoLoss.StepLosesNothing | server/Server.cpp:143-152 | every step keeps account of every waiting request on a live connection |
| Network.DeliveryIsParseResponse | client/ResponseParser.cpp:12-69 | the parse and finish steps of the transition system are one call of `ParseResponse` |
| Network.ReplyIsTaken | client/Client.cpp:102-109 | read, parse and finish are what a blocking client does with a reply: reassembled from chunks, delivered, and on with the loop |
| Network.SendIsSubmit | client/Client.cpp:50-71 | the send step of the transition system is one turn of the loop up to the reply: same id, table and frame; it waits exactly if the loop would block, and if not it is the whole turn |
| Network.WaitingTurnIsSteps | client/Client.cpp:92-112 | send, read, parse and finish are one turn of a blocking client that has to wait, with its reply taken, whatever other steps come before the reply is there |
| Network.CompletionIsTaken | client/Client.cpp:117-124 | read, parse and finish are the end of a read of an asynchronous client: a response for a request in the table takes it out, fires its callback and registers a created handle |
| Network.ReconnectIsPass | client/Client.cpp:73-87 | a write to a closed pipe and the reconnect after it are one pass of the loop: the client is ready on a new connection exactly if one of 100 attempts succeeds, and has stopped otherwise |
| Network.BuildableExactly | server/Server.cpp:10 | the commands that runs are about are those whose frame fits 4096 bytes |
| ServerCorrect.ServeRefines | server/RequestParser.cpp:12-51 | for every registry and every command a client can build, also with a dead handle, the byte-level server does the store's step and its reply is the encoding of that step's result under the same id; the one fault is the overflow of the handle counter |
| ServerCorrect.CreateThenGet | server/CustomClassParser.cpp:75-111 | byte for byte: a create with no, one or two arguments answers the next handle, and a get on it then answers zero and the empty string, or the arguments the create carried |
| ServerCorrect.ServeFaultsExactly | server/RequestParser.cpp:16-45 | for all bytes: the server leaves defined behaviour exactly if one of the reads on its way does, or a create finds no handle |
| ServerCorrect.AcceptsExactly | server/CustomClassParser.cpp:24-65 | for all bytes: a message is accepted exactly if it is a plain value, or for the class and a create or names an object that exists; one that is not changes nothing and is not answered |
| ServerCorrect.ServeAnyBytes | server/CustomClassParser.cpp:24-206 | whatever bytes arrive, unless they cause a fault, the server does at most one step of the store and answers under the id it reads |
| ServerCorrect.ReadingOfFrame | server/RequestParser.cpp:16-45 | the ordered dispatch recovers exactly the encoded id and command |
| ServerCorrect.UniqueDecoding | client/DemoSimulator.cpp:250-303 | two framed requests have the same bytes if and only if ids and commands are the same |
| Requests.SpelledCalls | client/DemoSimulator.cpp:256-273 | the bytes of the four calls, spelled out |
| Requests.SpelledObjects | client/DemoSimulator.cpp:59-97 | the bytes of the three creates and of the get, spelled out |
| ServerCorrect.ScanCreateExact | server/CustomClassParser.cpp:67-114 | create is recognised exactly for `#c`, `#c` int and `#c` int string with nothing left over |
| ServerCorrect.MissingHandleMeansZero | server/CustomClassParser.cpp:218-223 | any message for the class that is no create and has no readable handle is rejected if and only if there is no object 0; otherwise what it asks for is done to object 0 |
| ServerCorrect.HandlelessRefines | server/CustomClassParser.cpp:42-64 | every method call and get with its handle left out does the step of the store on handle 0, with its reply, and is accepted if and only if object 0 exists |
| ServerParser.ParseRequest | server/RequestParser.cpp:12-51 | on the mutable registry, one message has exactly the effect and the response that `Serve` gives |
| ServerParser.ParseCustomClass | server/CustomClassParser.cpp:24-49 | class name, create, then instance commands: effect and reply as `RunCustom` |
| ServerParser.ParseOnInstance | server/CustomClassParser.cpp:42-64 | handle, method call, then get: a failed call falls through with the object unchanged but the cursor after the method name |
| ServerParser.ParseCreateClass | server/CustomClassParser.cpp:67-114 | all or nothing: success adds one object with those fields under the next handle and consumes the message, failure leaves registry and cursor as they were |
| ServerParser.ParseMethodCall | server/CustomClassParser.cpp:116-156 | method dispatch, object state, reply and cursor for every name and argument |
| ServerParser.ParseSetIntegerValueMethodCall | server/CustomClassParser.cpp:180-192 | sets the value and reports whether it changed, or fails without effect |
| ServerParser.ParseSetStringValue | server/CustomClassParser.cpp:194-206 | sets the string and reports whether it changed, or fails without effect |
| ServerParser.ParseGetInstance | server/CustomClassParser.cpp:158-170 | succeeds exactly on `#g`, with the serialised fields wrapped in a string |
| ServerParser.GetClassInstanceFromRequest | server/CustomClassParser.cpp:218-223 | the object of the parsed handle, or of handle 0 when no handle parses |
| Server.HandleClientConnection | server/Server.cpp:97-157 | the thread's whole life, whatever other threads serve between its messages and whenever the server closes: the registry it leaves and every response written, in order, until reading or writing fails |
| Server.SessionRefines | server/Server.cpp:142-152 | a session of well-formed requests, with well-formed requests of other threads in between, is a run of the store with one reply for each own result that is not silent |
| Server.SessionAnyBytes | server/Server.cpp:114-153 | a session of arbitrary bytes that cause no fault is a run of the store on what is read from them, up to the first empty message |
| Server.SessionEnds | server/Server.cpp:114-140 | the thread ends at once when the server is closed or nothing comes, and at an empty message without serving it |
| Machines.ServeStepIsTurn | server/Server.cpp:114-153 | the serve step of the transition system is one turn of the service loop, which ends exactly if it has to write to a client that is gone |
| Server.SendResponseToClient | server/Server.cpp:166-189 | writes the id prefix followed by the data, or fails and writes nothing |
| ClassRegistries.ClassRegistry.Create | server/ClassRegistry.h:37-48 | a handle never used before is bound to a new object; every other binding stays |
| ClassRegistries.ClassRegistry.GetClassObjectByHandle | server/ClassRegistry.h:50-59 | the object bound to the handle, and none exactly if there is no binding |
| ClassRegistries.ClassRegistry.OneObjectChanged | server/ClassRegistry.h:28 | changing one object changes one entry of the registry and no other |
| ResponseParsers.ResponseDispatch | client/ResponseParser.cpp:12-54 | a framed value decodes to the same id and value if and only if its text has an `int` length; the custom-class branch never fires on it |
| ResponseParsers.PayloadExactly | client/ResponseParser.cpp:21-54 | for all bytes: the payload is the value that one of the four readers finds, unparsed if all miss, a fault if one faults |
| ResponseParsers.NoticeExactly | client/ResponseParser.cpp:71-117 | the custom-class form is recognised exactly as `#`, the class, `#i` and a handle |
| ResponseParsers.BadCastExactly | client/DemoSimulator.cpp:126-140 | the cast of a callback fails exactly for a value that is not of its own type |
| ResponseParsers.DeliverConserves | client/ResponseParser.cpp:56-66 | whatever a message decodes to, delivery fires no callback twice, keeps handles distinct, removes only that id, and is idempotent |
| ResponseParsers.ResponseParser.ParseResponse | client/ResponseParser.cpp:12-69 | table, fired callbacks and handles after one message: the decoded id's callback fires and leaves the table, unknown ids change nothing |
| ResponseParsers.ResponseParser.ParseNotice | client/ResponseParser.cpp:71-117 | recognises `#` class `#i` handle, and registers that handle |
| ResponseParsers.ResponseParser.RegisterRequest | client/ResponseParser.cpp:135-144 | adds the request unless its id is taken |
| ClassRepositories.ClassRepository.RegisterClassHandle | client/ClassRepository.cpp:10-20 | adds a handle exactly if it is missing; the list stays free of duplicates |
| ClassRepositories.ClassRepository.RegisterClassHandleUnguarded | client/ClassRepository.cpp:10-20 | without the outer mutex: added if and only if missing at the check, and a duplicate if and only if missing at the check and there at the push |
| ClassRepositories.CheckThenPushDuplicates | client/ClassRepository.cpp:10-20 | exactly when a check on one list and a push to a later one leave a duplicate; with nothing in between they are one atomic registration |
| ClassRepositories.TwoThreadsDuplicate | client/ClassRepository.cpp:10-20 | two threads that both check before either pushes leave the handle in the list twice |
| ClassRepositories.ClassRepository.ContainsClassHandle | client/ClassRepository.cpp:22-25 | true exactly if the handle is in the list |
| ClassRepositories.ClassRepository.GetClassHandleAtRandom | client/DemoSimulator.cpp:283-292 | while the list grows, an element of the first snapshot, and -1 exactly if that was empty |
| DemoSimulator.TypedResponse | client/DemoSimulator.cpp:99-236 | a live command is answered if and only if its request was built to wait, and then the client decodes its own id and its callback sees the result |
| DemoSimulator.NestedRoundTrip | client/DemoSimulator.cpp:219-228 | an object survives serialisation, wrapping, framing, decoding and restoring, for any string bytes, if and only if the outer length fits an `int` |
| DemoSimulator.DemoSimulator.ReadRequest | client/DemoSimulator.cpp:22-246 | bytes, wait flag and callback of each demo; without a handle an empty request and no counted iteration |
| DemoSimulator.RequestExactly | client/DemoSimulator.cpp:99-104 | a demo yields its request, flag and callback, unless its handle is -1; handle 0 is like any other |
| DemoSimulator.ChosenDemoIsSent | client/DemoSimulator.cpp:283-292 | a demo on a handle chosen at random is sent if and only if the list was not empty when its size was read |
| DemoSimulator.YieldedExactly | client/DemoSimulator.cpp:243-248 | the simulator yields the requests of its demos in order, and the demos are enough exactly if as many of them carry data as iterations are left |
| DemoSimulator.YieldedIsFilled | client/DemoSimulator.cpp:243-248 | until it is no longer good, a simulator yields exactly as many requests with data as it has iterations left |
| DemoSimulator.RequestBuilder.CreateCustomClassRequest | client/DemoSimulator.cpp:250-254 | appends `#` and the class name |
| DemoSimulator.RequestBuilder.CreateCallMethodRequest | client/DemoSimulator.cpp:256-273 | appends class, handle, `#m`, name and arguments |
| DemoSimulator.RequestBuilder.SerializeArguments | client/DemoSimulator.cpp:275-281 | appends the arguments in order |
| DemoSimulator.RequestBuilder.CreateRetrieveInstanceRequest | client/DemoSimulator.cpp:294-303 | appends class, handle and `#g` |
| Client.Client.Start | client/Client.cpp:29-90 | from the first connection until the data source is no longer good, with failing reconnects and with whatever completions other threads handle in between: last id, table, callbacks, handles, accepted frames, operations under way, and whether it finished |
| Client.Client.HandleRequest | client/Client.cpp:44-87 | the body of the loop: skip, submit, reconnect or end |
| Client.Client.ConnectToPipe | client/Client.cpp:156-174 | connected already, or after the first of up to 100 attempts that succeeds |
| Client.AttemptFails | client/Client.cpp:156-174 | connecting gives up exactly after that many failures in a row, with those attempts used up |
| Client.AttemptSucceeds | client/Client.cpp:156-174 | otherwise it uses up the attempts up to the first that succeeds |
| Client.PassExactly | client/Client.cpp:73-87 | after an accepted write the client goes on, after another error it ends; after a closed pipe it goes on if and only if one of the next 100 attempts connects |
| Client.RunExactly | client/Client.cpp:36-42 | a client that cannot connect at first ends without having done anything; otherwise it goes through its requests |
| Client.TurnExactly | client/Client.cpp:50-71 | every field after a turn; a reply is taken if and only if the client blocks, the write was accepted, the request waits and a reply is there |
| Client.TurnWaits | client/Client.cpp:102-109 | a turn is a turn without replies, followed by the reading of one if it has to wait |
| Client.ReadEndsExactly | client/Client.cpp:117-124 | the end of a read under way delivers its message, after everything that ended before it |
| Client.WriteEndsExactly | client/Client.cpp:127-143 | the end of a write takes out that write and posts a read exactly if its request waits |
| Client.Client.Submit | client/Client.cpp:50-71 | one turn: number, register, frame, write, and take the reply when it has to |
| Client.Client.ExecuteRequestSync | client/Client.cpp:92-112 | writes, then delivers one reply exactly if the write succeeded and the request waits |
| Client.Client.ExecuteRequestAsync | client/Client.cpp:145-153 | posts the write, with the flag that its completion looks at, and leaves table and replies alone |
| Client.Client.HandleWriteResponse | client/Client.cpp:127-143 | the completion of a write ends it, and posts a read exactly if its request waits |
| Client.Client.HandleReadResponse | client/Client.cpp:117-124 | the completion of a read ends it, and delivers its message |
| Client.ReadsAreOwed | client/Client.cpp:140-146 | reads under way plus reads still to be posted go up by one for each waiting request that is written, and down by one for each message taken |
| Client.IdsIncrease | client/Client.cpp:42-59 | over the whole loop, every accepted frame starts with an id of its own, ids increase along the wire, and a loop that finishes has numbered every request with data |
| Client.LoopConserves | client/Client.cpp:42-88 | whatever replies the pipe delivers and other threads take, no callback fires twice or for a request still in the table, and handles stay distinct |
| ClientPipe.ReadDataFromServerSync | client/Pipe.cpp:211-240 | terminates; returns the exact concatenation of the chunks of a complete message, and no data for a broken one |
| ClientPipe.BrokenIsNoData | client/Pipe.cpp:232-237 | a pipe that breaks yields no data, wherever in the message |
| ClientPipe.ChunksReassemble | client/Pipe.cpp:214-230 | a message of any length, cut to the size of the buffer, comes back whole |
| Framing.IdPartAt | client/ResponseParser.cpp:119-133 | the id prefix is read back, with the cursor right after it, whatever follows |
| Framing.RequestIdExactly | server/RequestParser.cpp:53-67 | for all bytes: the id with the cursor after it, or -1 with the cursor at the front exactly if there is none, and when the read faults |
| Framing.CreateRequestIdData | client/Client.cpp:14-20 | builds the id prefix |
| Framing.ParseRequestId | server/RequestParser.cpp:53-67 | the id and the cursor after it, or -1 with the cursor at the front |
| CustomClasses.FieldsRoundTrip | common/CustomClass.cpp:63-90 | serialising and restoring keeps the fields if and only if the string's length fits an `int` |
| CustomClasses.RestoreExactly | common/CustomClass.cpp:69-90 | for all bytes: the fields that the text starts with, or those of a default object, also when only the string is missing |
| CustomClasses.DecimalRoundTrip | common/CustomClass.cpp:32-39 | the printed integer reads back as itself, sign included |
| CustomClasses.PrintTextInjective | common/CustomClass.cpp:32-39 | objects at one address print the same text exactly if they have the same fields |
| CustomClasses.CustomClass.SetIntegerValue | common/CustomClass.cpp:41-50 | sets the value; true exactly if the object changed |
| CustomClasses.CustomClass.SetStringValue | common/CustomClass.cpp:52-61 | sets the string; true exactly if the object changed |
| CustomClasses.CustomClass.PrintToString | common/CustomClass.cpp:32-39 | three labelled lines: address, value, string |
| CustomClasses.CustomClass.Serialize | common/CustomClass.cpp:63-68 | the two fields as printed values |
| CustomClasses.CustomClass.Deserialize | common/CustomClass.cpp:69-90 | a new object with the restored fields, or with default fields if one does not parse |
| DataDeserializer.SequenceRoundTrip | common/DataDeserializer.cpp:3-79 | repeated parsing recovers a printed list inside any buffer if and only if no bool stands before the last position; the cursor then ends where the encoding does, or on the digit of the last bool |
| DataDeserializer.PrefixFree | common/DataSerializer.cpp:3-51 | two printed values at one place are the same value |
| DataDeserializer.ScanIntExact | common/DataDeserializer.cpp:15-35 | the int reader hits exactly on a printed int, and ends right after it |
| DataDeserializer.ScanDoubleExact | common/DataDeserializer.cpp:37-57 | the double reader hits exactly on a printed double, and ends right after it |
| DataDeserializer.ScanStringExact | common/DataDeserializer.cpp:59-79 | the string reader hits exactly on a printed string of `int` length, and ends right after it |
| DataDeserializer.ScanBoolExact | common/DataDeserializer.cpp:3-13 | the bool reader hits exactly on a tag with a byte after it, true for the digit 1 and false for every other |
| DataDeserializer.ScansFaultExactly | common/DataDeserializer.cpp:3-79 | exactly which inputs make each of the four readers leave its buffer or ask for a negative length |
| DataDeserializer.StringRoundTripExactly | common/DataSerializer.cpp:43-51 | a printed string is read back if and only if its length is below 2^31 |
| DataDeserializer.GuardIsOneByteShort | common/DataDeserializer.cpp:19-41 | of all truncations of an int or a double, the reader leaves its buffer exactly on the empty one and on the one that lacks the last byte |
| DataDeserializer.ParseBool | common/DataDeserializer.cpp:3-13 | value and cursor as `ScanBool`; the cursor stays on the digit |
| DataDeserializer.ParseInt | common/DataDeserializer.cpp:15-35 | value and cursor as `ScanInt`; a miss leaves the cursor and yields 0 |
| DataDeserializer.ParseDouble | common/DataDeserializer.cpp:37-57 | value and cursor as `ScanDouble`; a miss leaves the cursor and yields zero |
| DataDeserializer.ParseString | common/DataDeserializer.cpp:59-79 | value and cursor as `ScanString`; a miss leaves the cursor and yields the empty string |
| DataSerializer.Stream.SerializeBool | common/DataSerializer.cpp:3-6 | appends the tag and one digit |
| DataSerializer.Stream.SerializeInt | common/DataSerializer.cpp:8-23 | appends the tag and the four bytes |
| DataSerializer.Stream.SerializeDouble | common/DataSerializer.cpp:25-41 | appends the tag and the eight bytes |
| DataSerializer.Stream.SerializeString | common/DataSerializer.cpp:43-51 | appends the tag, the length narrowed to `int`, and the bytes |
| Wire.IntBytesBijective | common/DataDeserializer.cpp:23-32 | 32-bit integers and byte quadruples correspond one to one |

## Left out

- Fairness of the scheduler: that the continuations of `Outcomes.CallbackFires` and `Outcomes.WaitEnds` are the ones that happen.
- Win32 calls, overlapped I/O, wait registrations, event handles and the memory of callbacks.
- Message boundaries below whole messages: that the client does not set message-read mode, and that a request longer than one server read ends the connection.
- Data races on the fields of one object: setters take no lock per object, here each request is one step.
- Destruction of `Server` with its thread joins, server restart, the pauses of `ConnectToPipe`, and the waiting inside one attempt to connect.
- Order across reconnects: a request left in an old connection may be served after one sent on a new connection; `Theorems.ExecutedOnceInOrder` orders each connection.
- Client.Client.Start: the completions that other threads handle come between passes of the loop, and a source whose demos never get a handle to choose, on which the loop does not end, is excluded by `DemoSimulator.Enough`.
- Client.Client.ExecuteRequestAsync: only posts the write; what its two callbacks do is `Client.Client.HandleWriteResponse` and `Client.Client.HandleReadResponse`, and that the client or its parser may be gone by then is not modelled.
- Runs in which a client sends a frame of more than 4096 bytes; the codec and the refinement lemmas have no such bound.
- `GetAllHandles` copies the list without its mutex; each copy is taken as one step here.
- Failure callbacks: no demo attaches one, and those of the server only log.
- The `#` class `#i` form of a response is parsed by the client and modelled, but no server sends it.
- The numeric meaning of a double, and machines that differ in byte order.
- What callbacks and responses write to the log, with the handle and arguments they capture for it.
- Logging, prompts, `main.cpp` on both sides, the help text, random and manual choice of demos, and the pauses between them.
