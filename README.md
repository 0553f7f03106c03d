# Chat router over a System V message queue, in Dafny

The repository's router is a chat server. Clients send it commands over one
System V message queue, with `msg_type` 1 and their process id in
`client_pid`. The router sends back to a client with `msg_type` equal to that
client's id. The router has three variants, and each one has its own module
here:

- `ServerMtp` (app/servermtp.cpp). The receive loop hands every message to a
  thread pool as a `handleMessage` task. A room broadcast enqueues one send
  task per member on the same pool. `join`/`leave` need `n >= 2`, `say`/`dm`
  need `n >= 3`, and the heartbeat is spelt `"Pulse"`.
- `Server` (app/server.cpp). It dispatches every message inside its receive
  loop and sends broadcasts one after another. `help` is looked at first.
  Every other verb needs only `n >= 2`. With `n >= 2`, `say`, and `dm` once
  `stoi` accepts the target, read the `text` buffer whether or not `n == 3`.
- `ServerMt` (app/old/servermt.cpp). A receiver thread parses each message
  into a `BroadcastTask` and pushes it onto a FIFO queue. Worker threads pop
  tasks from the front and dispatch them on the verb alone. The heartbeat is
  spelt `"pulse"`. A room broadcast starts one `std::async` send per member
  and waits for all of them.

The variants share these modules:

- `CText`: the C character classes.
- `Scanf`: `sscanf(msg_text, "%s %s %[^\n]", cmd, roomname, text)`, following
  section 7.21.6.2 of ISO/IEC 9899:2011. The result is `Scanned(n, cmd,
  room, text)`, where `n` is EOF, 1, 2 or 3.
- `Convert`: `std::to_string` and `std::stoi`.
- `Transport`: inbound and outbound messages. `Payload` is the 255-character
  truncation done by `strncpy` into `msg_text[256]`. `MsgQueue` records every
  `msgsnd`.
- `Chat`: the `Client` value, the `Room` class, and the `Registry` class with
  its two find-or-create maps. `Registry.View()` reads the registry as a
  value `Reg`. `AddClient`, `AddRoom`, `JoinRoom` and `LeaveRoom` are the
  specification functions of its methods.

Each variant defines two things:

- a dispatch function on values (`DispatchEffect` or `TaskEffect`). It gives
  the new maps, the messages sent (and, for `ServerMtp`, the send tasks
  enqueued), and which branch ran.
- a `Router` class whose methods are proved equal to that function.

A room's member list is a sequence of client ids. The registry keeps exactly
one `Client` per id, and `leave` compares ids.

Behaviour of the code worth noting:

- Members form a list with duplicates: `join` does not de-duplicate.
- `say` to an unknown room creates the room and sends nothing.
- `leave` of an unknown room creates it.
- No command sends an Info or Error reply. There are no timestamps, no
  message prefixes, no `online` listing and no help text.
- Ids `<= 0` are not rejected.
- The repository's own clients can overflow the servers' `text[200]` buffer.
  app/clientmt.cpp reads each line into `line[256]` and sends
  `"say <room> <line>"` in up to 255 bytes, so with a short room name the
  text token can run to about 249 bytes, which all three servers copy into
  `text[200]`. The model treats that overflow as undefined behaviour and
  excludes it in `Defined` and `Fits`.
- A `dm` target that `stoi` rejects throws an exception that nothing catches,
  so it ends the process. Outcome `BadTarget` marks this, and the loops stop
  there.

## Model

| member | source | states |
|---|---|---|
| Scanf.ScanCommand | app/servermtp.cpp:208 | `n` is EOF (exactly when the text is all white space), 1, 2 or 3; tokens `1..n` are a `%s` word, a `%s` word and a non-empty newline-free text that does not start with a space; unassigned tokens are empty |
| Scanf.ScanThree | app/servermtp.cpp:208 | leading space, three tokens separated by white space, and nothing or a line break after the text scan back to `n == 3` and the same tokens |
| Scanf.ScanCommandLine | app/clientmt.cpp:53-55 | the `"<cmd> <room> <text>"` line the clients build scans back to its three tokens |
| Scanf.ScanTwo | app/servermtp.cpp:208 | two tokens followed only by white space scan to `n == 2` with an empty text |
| Scanf.ScanOne | app/servermtp.cpp:208 | one token followed only by white space scans to `n == 1` |
| Scanf.ScanVerbRoom | app/servermtp.cpp:208-211 | `"<cmd> <room>"` scans to `n == 2`, those tokens, and no text |
| Scanf.ScanVerb | app/servermtp.cpp:208-211 | a verb followed by white space scans to `n == 1` |
| Convert.ToString | app/servermtp.cpp:171 | `to_string` of an int is a `%s` word: digits for `v >= 0`, and '-' followed by digits for `v < 0` |
| Convert.ToStringLength | app/servermtp.cpp:171 | a 32-bit int prints in at most 11 characters, so it fits the 50-byte `roomname` buffer |
| Convert.NatDigitsLength | app/servermtp.cpp:171 | a number below `10^k` has at most `k` digits |
| Convert.DigitsValueOfNatDigits | app/servermtp.cpp:171 | the value of the digits `to_string` writes is the number |
| Convert.Stoi | app/servermtp.cpp:223 | `stoi` succeeds only with a value that fits an `int` |
| Convert.StoiToString | app/servermtp.cpp:223 | `stoi(to_string(v)) == v` for every int `v` |
| Convert.StoiOfDigits | app/servermtp.cpp:223 | digits followed by a non-digit read as their value, or throw when it does not fit an int |
| Convert.StoiOfNegatedDigits | app/servermtp.cpp:223 | '-' and digits read as the negated value, or throw when it does not fit an int |
| Convert.NegatedStoi | app/servermtp.cpp:223 | a string with no leading space, '-' and then digits reads as the negated value of the digits when it fits an int, and throws otherwise |
| Convert.StoiRejectsNonNumeric | app/servermtp.cpp:223 | a target that starts with neither a sign nor a digit makes `stoi` throw |
| Transport.Payload | app/servermtp.cpp:97-98 | the C string left in `msg_text` is the first `min(|text|, 255)` characters of `text` |
| Transport.MessageTo | app/servermtp.cpp:96-98 | the message goes to `msg_type == id` and carries the text truncated to what `msg_text` holds |
| Transport.MsgQueue.Send | app/servermtp.cpp:100 | `msgsnd` appends exactly that message to what was sent |
| Chat.Client.Boardcast | app/servermtp.cpp:92-103 | `Client::boardcast` sends exactly one message: to the client's id, with the truncated text |
| Chat.NewClient | app/servermtp.cpp:171 | a new client is named `to_string(id)` and has that id |
| Chat.RemoveFirst | app/servermtp.cpp:123-133 | with the id present, exactly one entry goes; with the id absent, the list is unchanged |
| Chat.RemoveFirstMultiset | app/servermtp.cpp:123-133 | `leave` takes out one copy of the id, if there is one, and nothing else |
| Chat.RemoveFirstAt | app/servermtp.cpp:125-127 | the entry erased is the first one with the id, and the other members keep their order |
| Chat.JoinThenLeave | app/servermtp.cpp:117-133 | after `join` of a non-member, `leave` restores the list |
| Chat.Room.constructor | app/servermtp.cpp:115 | a new room has its name and no members |
| Chat.Room.Join | app/servermtp.cpp:117-121 | `join` appends the id at the end, even when it is already present |
| Chat.Room.Leave | app/servermtp.cpp:123-133 | `leave` returns true exactly when the id was a member, and `members` becomes the list with its first entry for the id removed |
| Chat.BroadcastMsgs | app/servermtp.cpp:139-148 | one message per member, in member order; the i-th goes to `members[i]` and carries the truncated text |
| Chat.BroadcastTexts | app/servermtp.cpp:143-144 | every message of a broadcast carries the same truncated text |
| Chat.BroadcastCount | app/old/servermt.cpp:83-93 | a message occurs in a broadcast as often as its recipient occurs among the members, when it carries the text, and otherwise not at all |
| Chat.BroadcastReordered | app/old/servermt.cpp:83-98 | broadcasting to the members in any order sends the same messages |
| Chat.AddClient | app/servermtp.cpp:167-174 | a known id leaves the maps as they are; an unknown id adds exactly one entry, `Client(to_string(id), id)`; no other key changes |
| Chat.AddUnseenClient | app/servermtp.cpp:222-223 | a `dm` target the maps did not hold adds exactly its own entry |
| Chat.AddClientIdempotent | app/servermtp.cpp:167-174 | finding or creating a client twice is doing it once |
| Chat.AddRoom | app/servermtp.cpp:176-183 | a known name leaves the maps as they are; an unknown name adds exactly one empty room; no other room changes |
| Chat.AddRoomIdempotent | app/servermtp.cpp:176-183 | finding or creating a room twice is doing it once |
| Chat.MembersOf | app/servermtp.cpp:176-183 | the members of a room once it is found or created: its list, or empty for a new room |
| Chat.JoinRoom | app/servermtp.cpp:216-218 | `join` on the maps: only that room changes, and it becomes its old members followed by the client |
| Chat.LeaveRoom | app/servermtp.cpp:225-227 | `leave` on the maps: only that room changes, and it loses the first entry of the client |
| Chat.JoinLeaveRoom | app/servermtp.cpp:216-227 | join then leave of a non-member only leaves the room created |
| Chat.Registry.constructor | app/servermtp.cpp:158-159 | the router starts with two empty maps |
| Chat.Registry.CreateOrFindClient | app/servermtp.cpp:167-174 | returns the client for the id, and the new maps are `AddClient` of the old |
| Chat.Registry.CreateOrFindRoom | app/servermtp.cpp:176-183 | returns the room named `name`, a fresh object when the name was unknown, and the new maps are `AddRoom` of the old |
| Chat.Registry.Join | app/servermtp.cpp:216-218 | `CreateOrFindRoom(name)->join(client)` leaves the maps at `JoinRoom` of the old |
| Chat.Registry.Leave | app/servermtp.cpp:225-227 | `CreateOrFindRoom(name)->leave(client)` leaves the maps at `LeaveRoom` of the old, and returns whether the client was a member |
| ServerMtp.ThreadPool.constructor | app/servermtp.cpp:36-59 | the pool starts with no pending tasks |
| ServerMtp.ThreadPool.Enqueue | app/servermtp.cpp:62-69 | `enqueue` puts the task at the back of the pool's queue |
| ServerMtp.SendTasks | app/servermtp.cpp:139-148 | one send task per message, in order |
| ServerMtp.Handlers | app/servermtp.cpp:199-201 | one handling task per received message, in order |
| ServerMtp.BoardCast | app/servermtp.cpp:135-150 | enqueues exactly one send task per member, in member order, each to that member's id with the truncated text; `members` is only read |
| ServerMtp.Defined | app/servermtp.cpp:207-212 | a message is handled without undefined behaviour exactly when it is not all white space (so `cmd` is assigned) and no token overflows `cmd[10]`, `roomname[50]` or `text[200]` |
| ServerMtp.DispatchEffect | app/servermtp.cpp:205-233 | the sender is always registered and no registered client changes; no room disappears |
| ServerMtp.Step | app/servermtp.cpp:205-233 | `handleMessage` on the maps always registers the sender and changes no registered client |
| ServerMtp.StepOf | app/servermtp.cpp:208-212 | a message whose scan is known, with every token fitting its buffer, is handled by those tokens |
| ServerMtp.InertCommands | app/servermtp.cpp:228-232 | any command other than `join`/`leave` with a room, or `say`/`dm` with a text ("pulse" and "help" included), only registers the sender and sends nothing |
| ServerMtp.JoinEffect | app/servermtp.cpp:216-218 | `join` with `n >= 2` appends the sender to the room, which is created if new |
| ServerMtp.LeaveEffect | app/servermtp.cpp:225-227 | `leave` with `n >= 2` removes the sender's first entry and reports whether it was a member |
| ServerMtp.SayEffect | app/servermtp.cpp:219-221 | `say` with `n == 3` enqueues one send per member of the room as it was, and creates the room if new |
| ServerMtp.DmEffect | app/servermtp.cpp:222-224 | `dm` with `n == 3` and a target `stoi` reads registers the target and sends it the text directly |
| ServerMtp.JoinNeedsRoom | app/servermtp.cpp:216 | "join" without a room only registers the sender |
| ServerMtp.SayNeedsText | app/servermtp.cpp:219 | "say <room>" without a text only registers the sender |
| ServerMtp.JoinStep | app/servermtp.cpp:216-218 | the message "join <room>" appends the sender to the room |
| ServerMtp.LeaveStep | app/servermtp.cpp:225-227 | the message "leave <room>" removes the sender's first entry and reports whether it was a member |
| ServerMtp.SayStep | app/servermtp.cpp:219-221 | the message "say <room> <text>" enqueues the text for every member, in member order |
| ServerMtp.SayToUnseenRoom | app/servermtp.cpp:219-221 | `say` to a room never named before creates it empty and sends nothing |
| ServerMtp.DmStep | app/servermtp.cpp:222-224 | the message "dm <id> <text>" with an id `stoi` reads sends the text to that id once |
| ServerMtp.DmToString | app/servermtp.cpp:222-224 | "dm <to_string(id)> <text>" reaches `id`, for every int |
| ServerMtp.DmToUnseenClient | app/servermtp.cpp:222-224 | `dm` to an unseen id adds exactly that client, named `to_string(id)`, changes no room and sends it exactly one message |
| ServerMtp.WholeTextSent | app/servermtp.cpp:207-212 | a text that fits `text[200]` is never cut: every message sent or enqueued carries the text token whole |
| ServerMtp.SentTexts | app/servermtp.cpp:212-224 | every message a command sends or enqueues carries `textStr`, truncated |
| ServerMtp.JoinThenSay | app/servermtp.cpp:216-221 | after `join`, a `say` to the room reaches the earlier members and then the new one, last |
| ServerMtp.JoinThenLeave | app/servermtp.cpp:216-227 | join then leave of a non-member finds it, restores the room's members and sends nothing |
| ServerMtp.Router.constructor | app/servermtp.cpp:156-165 | the router starts with empty maps, an empty pool and nothing sent |
| ServerMtp.Router.Start | app/servermtp.cpp:188-203 | every received message becomes one handling task at the back of the pool, in order |
| ServerMtp.Router.HandleMessage | app/servermtp.cpp:205-233 | `handleMessage` leaves the maps, the sends and the pool exactly as `Step` says |
| ServerMtp.Router.Dispatch | app/servermtp.cpp:210-233 | the body after `sscanf` leaves the maps, the sends and the pool exactly as `DispatchEffect` says |
| ServerMtp.Router.Say | app/servermtp.cpp:219-221 | the `say` branch creates the room if new and enqueues one send task per member of the room as it was |
| Server.BoardCast | app/server.cpp:81-98 | one `msgsnd` per member, in member order, to that member's id, each with the same truncated text; `members` is only read |
| Server.TextRead | app/server.cpp:185-193 | only `say`, and `dm` with a target `stoi` reads, with at least a room, read the `text` buffer |
| Server.Defined | app/server.cpp:168-193 | a defined message is not all white space, its tokens fit their buffers, and a `say` without a text is never defined |
| Server.DispatchEffect | app/server.cpp:166-207 | the sender is always registered and no registered client changes; no room disappears |
| Server.Step | app/server.cpp:166-207 | one pass of the loop body always registers the sender and changes no registered client |
| Server.StepOf | app/server.cpp:168-172 | a message whose scan is known, with its tokens fitting and the text set where it is read, is handled by those tokens |
| Server.InertCommands | app/server.cpp:176-207 | "help", "Pulse" and any verb other than the four with a room only register the sender and send nothing |
| Server.JoinEffect | app/server.cpp:180-184 | `join` with `n >= 2` appends the sender to the room |
| Server.LeaveEffect | app/server.cpp:195-199 | `leave` with `n >= 2` removes the sender's first entry and reports whether it was a member |
| Server.SayEffect | app/server.cpp:185-189 | `say` with a text sends it to every member of the room as it was, creating the room if new |
| Server.DmEffect | app/server.cpp:190-194 | `dm` with a target `stoi` reads registers it and sends it the text |
| Server.SayWithoutTextUndefined | app/server.cpp:185-188 | "say <room>" with no text reads the uninitialised `text` buffer |
| Server.JoinStep | app/server.cpp:180-184 | "join <room>" appends the sender to the room |
| Server.LeaveStep | app/server.cpp:195-199 | "leave <room>" removes the sender's first entry |
| Server.JoinMessage | app/server.cpp:168-184 | any message that scans to `join` and a room is defined and appends the sender to that room |
| Server.LeaveMessage | app/server.cpp:168-199 | any message that scans to `leave` and a room is defined and removes the sender's first entry, reporting whether it was a member |
| Server.SayStep | app/server.cpp:185-189 | "say <room> <text>" sends the text to every member of the room, in member order, creating the room if new |
| Server.DmStep | app/server.cpp:190-194 | "dm <id> <text>" with an id `stoi` reads registers that client and sends it exactly one message |
| Server.DmToString | app/server.cpp:190-194 | "dm <to_string(id)> <text>" reaches `id`, for every int |
| Server.SameAsPoolRouter | app/server.cpp:166-207 | on a full command this router changes the maps as app/servermtp.cpp does and sends, in the same order, what that one sends or enqueues; only "help" is told apart |
| Server.Runs | app/server.cpp:154-208 | the loop can run over the inbox only if the first message it reaches is defined |
| Server.RunFrom | app/server.cpp:154-208 | the loop over the inbox handles at most all messages and at least the first, and keeps every client named for its key |
| Server.RunFromFirst | app/server.cpp:154-208 | the loop's first pass, and the rest of the run after it |
| Server.Router.constructor | app/server.cpp:108-120 | the router starts with empty maps and nothing sent |
| Server.Router.Start | app/server.cpp:151-209 | the receive loop leaves the maps, the messages sent and the count handled as `RunFrom` says, stopping after a `dm` target `stoi` rejects |
| Server.Router.Receive | app/server.cpp:156-207 | one pass of the loop completes the first step of the run |
| Server.Router.Dispatch | app/server.cpp:170-207 | the loop body after `sscanf` leaves the maps and the sends exactly as `DispatchEffect` says |
| Server.Router.Say | app/server.cpp:185-189 | the `say` branch sends to every member of the room as it was |
| ServerMt.ParseTask | app/old/servermt.cpp:194-202 | the task keeps the sender; `cmd` is empty exactly when the text is all white space; `room_name` is empty unless `n >= 2` and `message` unless `n == 3` |
| ServerMt.Fits | app/old/servermt.cpp:194-202 | when no token overflows its buffer, the task's fields are no longer than the `cmd[10]`, `roomname[50]` and `text[200]` buffers allow |
| ServerMt.ParseTasks | app/old/servermt.cpp:186-206 | one task per message, in order |
| ServerMt.ParseCommandLine | app/old/servermt.cpp:195-202 | a `"<cmd> <room> <text>"` line parses to exactly those three fields |
| ServerMt.BoardCast | app/old/servermt.cpp:78-99 | each member gets exactly one message with the truncated text, in some order, before the call returns |
| ServerMt.TaskEffect | app/old/servermt.cpp:165-181 | the sender is always registered and no registered client changes; no room disappears |
| ServerMt.InertTasks | app/old/servermt.cpp:179-181 | a verb other than the four only registers the sender and sends nothing; "pulse" is told apart |
| ServerMt.JoinWithoutRoom | app/old/servermt.cpp:167-169 | "join" with no room joins the room named "" and creates it |
| ServerMt.SayWithoutText | app/old/servermt.cpp:170-172 | "say <room>" with no text sends an empty text to every member, in member order |
| ServerMt.DmWithoutTarget | app/old/servermt.cpp:173-175 | "dm" with no target makes `stoi("")` throw |
| ServerMt.LeaveUnseenRoom | app/old/servermt.cpp:176-178 | `leave` of a room never named before creates it empty and returns false |
| ServerMt.SameAsPoolRouter | app/old/servermt.cpp:165-181 | on a full command this router changes the maps and sends as app/servermtp.cpp does; only the heartbeat's spelling differs |
| ServerMt.SameTask | app/old/servermt.cpp:165-181 | the same comparison on the tokens |
| ServerMt.Drain | app/old/servermt.cpp:154-183 | draining handles at most every task and at least the first, stops early only at a rejected `dm`, and keeps clients named |
| ServerMt.DrainAppend | app/old/servermt.cpp:145-162 | the FIFO queue keeps order: draining `a + b` drains `a` and then, unless stopped, `b` |
| ServerMt.DrainWithoutDm | app/old/servermt.cpp:165-181 | without a `dm`, every task in the queue is handled |
| ServerMt.FlattenSnoc | app/old/servermt.cpp:154-183 | the messages of the handled tasks grow by the last task's messages |
| ServerMt.DrainFirst | app/old/servermt.cpp:161-162 | the front task is handled first, and the rest of the drain follows from it |
| ServerMt.Router.constructor | app/old/servermt.cpp:115-126 | the router starts with empty maps, an empty task queue and nothing sent |
| ServerMt.Router.EnqueueTask | app/old/servermt.cpp:145-151 | the task goes to the back of the queue |
| ServerMt.Router.ReceiverThread | app/old/servermt.cpp:186-206 | the queue grows by the parsed tasks of the received messages, in order |
| ServerMt.Router.HandleTask | app/old/servermt.cpp:165-181 | the maps and branch are as `TaskEffect` says; the messages sent are those of `TaskEffect`, exactly so except for a room broadcast, whose order is free |
| ServerMt.Router.Say | app/old/servermt.cpp:170-172 | the `say` branch creates the room if new and sends one message per member of the room as it was |
| ServerMt.Router.TakeTask | app/old/servermt.cpp:156-181 | the worker pops the front task and handles it: the first step of the drain |
| ServerMt.Router.WorkerThread | app/old/servermt.cpp:154-183 | a single worker handles the queue from the front, in order, none lost or repeated: the maps and the count are as `Drain` says, each task's messages are sent in turn, and each task's messages are `Drain`'s up to order |

## Left out

- `ServerMt.BoardCast`: the order in which the `std::async` sends reach `msgsnd` is a non-deterministic choice (`:|`) over the permutations of the members. Dafny cannot compile that choice, so the model is for verification only, and which order the scheduler picks is not modelled.
- A `char` stands for one byte of a C string. The 255-character truncation and the 10, 50 and 200 buffer limits count bytes. A text holding a character above 255 has no counterpart in the source, and multi-byte encodings are not modelled.
- Threads and their synchronisation are left out: the pool's worker threads, `std::async` and `future::get`, the mutexes, `condition_variable` waits, and the `running`/`stop()` shutdown. The pools and queues are sequences that the methods append to and pop from. With several workers, tasks could interleave; that is not modelled.
- `ServerMtp.Router.HandleMessage` models one task the pool runs. When the pool runs the tasks is not modelled, and neither is the pool running the enqueued send tasks.
- `ServerMt.BoardCast` and `ServerMt.Router.HandleTask` state the broadcast's sends only up to order (an equal multiset), because the scheduler picks the order of the `std::async` sends.
- `ServerMt.Router.WorkerThread` stops when the queue is empty. There the thread would wait on the condition variable.
- Failure of `msgsnd` is left out: a failed send is counted as sent, because `perror` only logs it. The kernel's rejection of `msg_type <= 0` is left out too.
- `msgrcv` is left out: the messages it delivers before failing are the `inbox` parameter.
- `msgget`, `msgctl`, `ftok`, `main`, the destructors and all `cout`/`printf` logging are left out.
- A `dm` whose target `stoi` rejects throws and terminates the process. That is outcome `BadTarget`: nothing is sent, and the loops stop after it. The termination itself is not modelled.
- In app/servermtp.cpp the exception is thrown inside a pool task. `ServerMtp.Router.Start` only enqueues, so the model does not stop the pool.
- Undefined behaviour is a precondition, not a modelled outcome. This covers a token too long for `cmd[10]`, `roomname[50]` or `text[200]`; `cmd` read uninitialised when `sscanf` returns EOF (app/servermtp.cpp and app/server.cpp); and `text` read uninitialised by `say`/`dm` with `n == 2` in app/server.cpp.
- `roomname` is copied uninitialised when `n < 2` (app/server.cpp:171). No applicable branch reads it, so it is modelled as the empty string.
- `msg_text` is a C string: the model's inbound text is the characters before its NUL. A `msg_text` with no NUL is not modelled.
- `Convert.Stoi` models the decimal `stoi` with the C locale's white space. Its result is `None` for both exceptions, `invalid_argument` and `out_of_range`.
- The client programs (app/client.cpp, app/clientmt.cpp, app/clientsim.cpp) are not part of this model. Only the line shape of app/clientmt.cpp appears, as `Scanf.ScanCommandLine`.
- `BoardCastWorker` (app/server.cpp:147-149) has an empty body and is never called, so it is not modelled.
