/** app/servermtp.cpp: the router that hands every received message to a
    thread pool, and whose room broadcasts enqueue one send task per member
    on the same pool. The pool's worker threads are not modelled: the pool is
    its queue of pending tasks. */
module ServerMtp {
  import opened CText
  import opened Scanf
  import opened Convert
  import opened Transport
  import opened Chat

  /** A pending pool task: `handleMessage(message)`, or one member's send of
      a broadcast. */
  datatype Task = Handle(message: Inbound) | SendTask(out: Outbound)

  /** The `ThreadPool`'s task queue. */
  class ThreadPool {
    var tasks: seq<Task>

    constructor()
      ensures tasks == []
    {
      tasks := [];
    }

    /** `ThreadPool::enqueue`: the task goes to the back of the queue. */
    method Enqueue(t: Task)
      modifies this
      ensures tasks == old(tasks) + [t]
    {
      tasks := tasks + [t];
    }
  }

  /** One send task per message, in order. */
  function SendTasks(out: seq<Outbound>): (ts: seq<Task>)
    ensures |ts| == |out|
    ensures forall i :: 0 <= i < |out| ==> ts[i] == SendTask(out[i])
  {
    if out == [] then [] else [SendTask(out[0])] + SendTasks(out[1..])
  }

  /** One handling task per received message, in order. */
  function Handlers(inbox: seq<Inbound>): (ts: seq<Task>)
    ensures |ts| == |inbox|
    ensures forall i :: 0 <= i < |inbox| ==> ts[i] == Handle(inbox[i])
  {
    if inbox == [] then [] else [Handle(inbox[0])] + Handlers(inbox[1..])
  }

  /** `Room::BoardCast(text, pool)`: one send task per member, in member
      order; the members are only read. */
  method BoardCast(room: Room, text: string, pool: ThreadPool)
    modifies pool
    ensures pool.tasks == old(pool.tasks) + SendTasks(BroadcastMsgs(room.members, text))
  {
    var i := 0;
    while i < |room.members|
      invariant 0 <= i <= |room.members|
      invariant |pool.tasks| == |old(pool.tasks)| + i
      invariant pool.tasks[..|old(pool.tasks)|] == old(pool.tasks)
      invariant forall j :: 0 <= j < i ==>
                  pool.tasks[|old(pool.tasks)| + j] == SendTask(MessageTo(room.members[j], text))
    {
      var msg := Outbound(room.members[i], Payload(text));
      pool.Enqueue(SendTask(msg));
      i := i + 1;
    }
  }

  /** A message `handleMessage` can process without undefined behaviour:
      `cmd` is assigned (`sscanf` did not return EOF, which would leave `cmd`
      uninitialised) and no token overflows its buffer. */
  predicate Defined(m: Inbound): (d: bool)
    ensures d <==> !AllSpace(m.text) && FitsBuffers(ScanCommand(m.text))
  {
    var s := ScanCommand(m.text);
    s.n != EOF && FitsBuffers(s)
  }

  /** The effect of one `handleMessage`: the new maps, the messages sent
      directly, the messages whose send tasks were enqueued, and the branch. */
  datatype Effect = Effect(reg: Reg, sent: seq<Outbound>, queued: seq<Outbound>, outcome: Outcome)

  /** `Router::handleMessage` on the maps, from the `sscanf` result on:
      `roomStr` is the room token only when `n >= 2` and `textStr` the text
      token only when `n == 3`; the sender is registered before the verb is
      looked at. */
  function DispatchEffect(r: Reg, pid: int, s: Scanned): (e: Effect)
    ensures pid in e.reg.clients
    ensures forall k :: k in r.clients ==> k in e.reg.clients && e.reg.clients[k] == r.clients[k]
    ensures ClientsNamed(r.clients) ==> ClientsNamed(e.reg.clients)
    ensures r.rooms.Keys <= e.reg.rooms.Keys
  {
    var roomStr := if s.n >= 2 then s.room else "";
    var textStr := if s.n == 3 then s.text else "";
    var r1 := AddClient(r, pid);
    if s.cmd == "join" && s.n >= 2 then
      Effect(JoinRoom(r1, roomStr, pid), [], [], Joined)
    else if s.cmd == "say" && s.n >= 3 then
      Effect(AddRoom(r1, roomStr), [], BroadcastMsgs(MembersOf(r1, roomStr), textStr), Said)
    else if s.cmd == "dm" && s.n >= 3 then
      match Stoi(roomStr)
      case None => Effect(r1, [], [], BadTarget)
      case Some(target) => Effect(AddClient(r1, target), [MessageTo(target, textStr)], [], Messaged)
    else if s.cmd == "leave" && s.n >= 2 then
      Effect(LeaveRoom(r1, roomStr, pid), [], [], Left(pid in MembersOf(r1, roomStr)))
    else if s.cmd == "Pulse" then
      Effect(r1, [], [], Pulsed)
    else
      Effect(r1, [], [], Ignored)
  }

  /** `Router::handleMessage(m)` on the maps. */
  function Step(r: Reg, m: Inbound): (e: Effect)
    requires Defined(m)
    ensures m.clientPid in e.reg.clients
    ensures forall k :: k in r.clients ==> k in e.reg.clients && e.reg.clients[k] == r.clients[k]
  {
    DispatchEffect(r, m.clientPid, ScanCommand(m.text))
  }

  // ---- what one message does ----

  /** A message whose tokens are known steps by them. */
  lemma StepOf(r: Reg, m: Inbound, s: Scanned)
    requires ScanCommand(m.text) == s && s.n != EOF && FitsBuffers(s)
    ensures Defined(m) && Step(r, m) == DispatchEffect(r, m.clientPid, s)
  {
  }

  /** Only `join` and `leave` with a room and `say` and `dm` with a text act:
      every other command, "pulse" and "help" among them, registers the
      sender and changes nothing else. */
  lemma InertCommands(r: Reg, pid: int, s: Scanned)
    requires !((s.cmd == "join" || s.cmd == "leave") && s.n >= 2)
    requires !((s.cmd == "say" || s.cmd == "dm") && s.n >= 3)
    ensures var e := DispatchEffect(r, pid, s);
            e.reg == AddClient(r, pid) && e.sent == [] && e.queued == [] &&
            e.outcome == if s.cmd == "Pulse" then Pulsed else Ignored
  {
  }

  /** `join` with a room: the sender is appended to it. */
  lemma JoinEffect(r: Reg, p: int, s: Scanned)
    requires s.cmd == "join" && s.n >= 2
    ensures DispatchEffect(r, p, s) == Effect(JoinRoom(AddClient(r, p), s.room, p), [], [], Joined)
  {
  }

  /** `leave` with a room: the sender's first entry goes, if there is one. */
  lemma LeaveEffect(r: Reg, p: int, s: Scanned)
    requires s.cmd == "leave" && s.n >= 2
    ensures DispatchEffect(r, p, s)
            == Effect(LeaveRoom(AddClient(r, p), s.room, p), [], [], Left(p in MembersOf(r, s.room)))
  {
    assert MembersOf(AddClient(r, p), s.room) == MembersOf(r, s.room);
  }

  /** `say` with a text: the members as they were, the room created if new. */
  lemma SayEffect(r: Reg, p: int, s: Scanned)
    requires s.cmd == "say" && s.n == 3
    ensures DispatchEffect(r, p, s)
            == Effect(AddRoom(AddClient(r, p), s.room), [], BroadcastMsgs(MembersOf(r, s.room), s.text), Said)
  {
    assert MembersOf(AddClient(r, p), s.room) == MembersOf(r, s.room);
  }

  /** "join" without a room does nothing but register the sender. */
  lemma JoinNeedsRoom(r: Reg, pid: int, trail: string)
    requires AllSpace(trail)
    ensures Defined(Inbound(pid, "join" + trail))
    ensures Step(r, Inbound(pid, "join" + trail)) == Effect(AddClient(r, pid), [], [], Ignored)
  {
    var s := Scanned(1, "join", "", "");
    assert ScanCommand("join" + trail) == s by { VerbsAreWords(); ScanVerb("join", trail); }
    StepOf(r, Inbound(pid, "join" + trail), s);
    InertCommands(r, pid, s);
  }

  /** "say" with a room but no text does nothing but register the sender. */
  lemma SayNeedsText(r: Reg, pid: int, room: string)
    requires Word(room) && |room| < 50
    ensures Defined(Inbound(pid, "say" + " " + room))
    ensures Step(r, Inbound(pid, "say" + " " + room)) == Effect(AddClient(r, pid), [], [], Ignored)
  {
    var s := Scanned(2, "say", room, "");
    assert ScanCommand("say" + " " + room) == s by { VerbsAreWords(); ScanVerbRoom("say", room); }
    StepOf(r, Inbound(pid, "say" + " " + room), s);
    InertCommands(r, pid, s);
  }

  /** "join <room>": the sender is appended to the room, created if new. */
  lemma JoinStep(r: Reg, p: int, room: string)
    requires Word(room) && |room| < 50
    ensures Defined(Inbound(p, "join" + " " + room))
    ensures Step(r, Inbound(p, "join" + " " + room)) == Effect(JoinRoom(AddClient(r, p), room, p), [], [], Joined)
  {
    var s := Scanned(2, "join", room, "");
    assert ScanCommand("join" + " " + room) == s by { VerbsAreWords(); ScanVerbRoom("join", room); }
    StepOf(r, Inbound(p, "join" + " " + room), s);
    JoinEffect(r, p, s);
  }

  /** "leave <room>": the sender's first entry is removed from the room,
      created if new, and `leave` reports whether there was one. */
  lemma LeaveStep(r: Reg, p: int, room: string)
    requires Word(room) && |room| < 50
    ensures Defined(Inbound(p, "leave" + " " + room))
    ensures Step(r, Inbound(p, "leave" + " " + room))
            == Effect(LeaveRoom(AddClient(r, p), room, p), [], [], Left(p in MembersOf(r, room)))
  {
    var s := Scanned(2, "leave", room, "");
    assert ScanCommand("leave" + " " + room) == s by { VerbsAreWords(); ScanVerbRoom("leave", room); }
    StepOf(r, Inbound(p, "leave" + " " + room), s);
    LeaveEffect(r, p, s);
  }

  /** "say <room> <text>": one send task per member of the room, created if
      new, in member order. */
  lemma SayStep(r: Reg, p: int, room: string, text: string)
    requires Word(room) && |room| < 50 && TextToken(text) && |text| < 200
    ensures Defined(Inbound(p, "say" + " " + room + " " + text))
    ensures Step(r, Inbound(p, "say" + " " + room + " " + text))
            == Effect(AddRoom(AddClient(r, p), room), [], BroadcastMsgs(MembersOf(r, room), text), Said)
  {
    var s := Scanned(3, "say", room, text);
    assert ScanCommand("say" + " " + room + " " + text) == s by { VerbsAreWords(); ScanCommandLine("say", room, text); }
    StepOf(r, Inbound(p, "say" + " " + room + " " + text), s);
    SayEffect(r, p, s);
  }

  /** `say` to a room nobody has named before creates it, empty, and sends nothing. */
  lemma SayToUnseenRoom(r: Reg, pid: int, room: string, text: string)
    requires Word(room) && |room| < 50 && TextToken(text) && |text| < 200
    requires room !in r.rooms
    ensures Defined(Inbound(pid, "say" + " " + room + " " + text))
    ensures Step(r, Inbound(pid, "say" + " " + room + " " + text))
            == Effect(AddRoom(AddClient(r, pid), room), [], [], Said)
  {
    SayStep(r, pid, room, text);
  }

  /** `dm` to an id nobody has used registers that client, with its
      `to_string` name, and sends it exactly one message; no room changes. */
  lemma DmToUnseenClient(r: Reg, pid: int, target: int, text: string)
    requires IsInt(target) && target !in r.clients
    requires TextToken(text) && |text| < 200
    ensures Defined(Inbound(pid, "dm" + " " + ToString(target) + " " + text))
    ensures Step(r, Inbound(pid, "dm" + " " + ToString(target) + " " + text))
            == Effect(Reg(AddClient(r, pid).clients[target := NewClient(target)], r.rooms),
                      [MessageTo(target, text)], [], Messaged)
  {
    DmToString(r, pid, target, text);
    AddUnseenClient(r, pid, target);
  }

  /** "dm <to_string(id)> <text>": client `id` gets the text, for every `int`. */
  lemma DmToString(r: Reg, pid: int, target: int, text: string)
    requires IsInt(target) && TextToken(text) && |text| < 200
    ensures Defined(Inbound(pid, "dm" + " " + ToString(target) + " " + text))
    ensures Step(r, Inbound(pid, "dm" + " " + ToString(target) + " " + text))
            == Effect(AddClient(AddClient(r, pid), target), [MessageTo(target, text)], [], Messaged)
  {
    var name := ToString(target);
    assert |name| < 50 && Stoi(name) == Some(target) by {
      ToStringLength(target);
      StoiToString(target);
    }
    DmStep(r, pid, name, target, text);
  }

  /** "dm <id> <text>" whose id `stoi` reads: the target is registered if
      new and sent the text directly; no room changes. */
  lemma DmStep(r: Reg, pid: int, name: string, target: int, text: string)
    requires Word(name) && |name| < 50 && Stoi(name) == Some(target)
    requires TextToken(text) && |text| < 200
    ensures Defined(Inbound(pid, "dm" + " " + name + " " + text))
    ensures Step(r, Inbound(pid, "dm" + " " + name + " " + text))
            == Effect(AddClient(AddClient(r, pid), target), [MessageTo(target, text)], [], Messaged)
  {
    var s := Scanned(3, "dm", name, text);
    assert ScanCommand("dm" + " " + name + " " + text) == s by {
      VerbsAreWords();
      ScanCommandLine("dm", name, text);
    }
    StepOf(r, Inbound(pid, "dm" + " " + name + " " + text), s);
    DmEffect(r, pid, s, target);
  }

  lemma DmEffect(r: Reg, pid: int, s: Scanned, target: int)
    requires s.cmd == "dm" && s.n == 3 && Stoi(s.room) == Some(target)
    ensures DispatchEffect(r, pid, s)
            == Effect(AddClient(AddClient(r, pid), target), [MessageTo(target, s.text)], [], Messaged)
  {
  }

  /** A text that fits the `text[200]` buffer is never cut to 255
      characters: every message carries the text token whole. */
  lemma WholeTextSent(r: Reg, m: Inbound)
    requires Defined(m)
    ensures var e := Step(r, m);
            forall o :: o in e.sent + e.queued ==> o.text == ScanCommand(m.text).text
  {
    var s := ScanCommand(m.text);
    assert Payload(s.text) == s.text;
    SentTexts(r, m.clientPid, s);
  }

  /** Every message a command sends carries its text token, truncated. */
  lemma SentTexts(r: Reg, pid: int, s: Scanned)
    ensures var e := DispatchEffect(r, pid, s);
            forall o :: o in e.sent + e.queued ==> o.text == Payload(if s.n == 3 then s.text else "")
  {
    var e := DispatchEffect(r, pid, s);
    var textStr := if s.n == 3 then s.text else "";
    if s.cmd == "say" && s.n >= 3 {
      var members := MembersOf(AddClient(r, pid), s.room);
      assert e.sent + e.queued == BroadcastMsgs(members, textStr);
      BroadcastTexts(members, textStr);
    } else if s.cmd == "dm" && s.n >= 3 && Stoi(s.room).Some? {
      assert e.sent + e.queued == [MessageTo(Stoi(s.room).value, textStr)];
    } else {
      assert e.sent + e.queued == [];
    }
  }

  /** After `p` joins a room, a `say` to it from anyone is queued for the
      earlier members and then for `p`. */
  lemma JoinThenSay(r: Reg, p: int, sender: int, room: string, text: string)
    requires Word(room) && |room| < 50 && TextToken(text) && |text| < 200
    ensures Defined(Inbound(p, "join" + " " + room))
    ensures Defined(Inbound(sender, "say" + " " + room + " " + text))
    ensures var r1 := Step(r, Inbound(p, "join" + " " + room)).reg;
            var e := Step(r1, Inbound(sender, "say" + " " + room + " " + text));
            e.queued == BroadcastMsgs(MembersOf(r, room) + [p], text) &&
            e.queued[|e.queued| - 1] == MessageTo(p, text)
  {
    JoinStep(r, p, room);
    var r1 := JoinRoom(AddClient(r, p), room, p);
    SayStep(r1, sender, room, text);
    assert MembersOf(r1, room) == MembersOf(r, room) + [p];
  }

  /** A client that joins a room it was not in and then leaves it leaves
      the room's members as they were, and `leave` finds it. */
  lemma JoinThenLeave(r: Reg, p: int, room: string)
    requires Word(room) && |room| < 50 && p !in MembersOf(r, room)
    ensures Defined(Inbound(p, "join" + " " + room)) && Defined(Inbound(p, "leave" + " " + room))
    ensures var r1 := Step(r, Inbound(p, "join" + " " + room)).reg;
            var e := Step(r1, Inbound(p, "leave" + " " + room));
            e.outcome == Left(true) && e.reg.rooms == AddRoom(r, room).rooms && e.sent == [] && e.queued == []
  {
    JoinStep(r, p, room);
    var r0 := AddClient(r, p);
    var r1 := JoinRoom(r0, room, p);
    LeaveStep(r1, p, room);
    assert AddClient(r1, p) == r1;
    assert MembersOf(r0, room) == MembersOf(r, room);
    JoinLeaveRoom(r0, room, p);
  }

  /** `class Router`: the two maps, the pool, and the outgoing queue. */
  class Router {
    const reg: Registry
    const pool: ThreadPool
    const queue: MsgQueue

    constructor()
      ensures fresh(reg) && fresh(pool) && fresh(queue)
      ensures reg.Valid() && reg.View() == Empty && pool.tasks == [] && queue.sent == []
    {
      reg := new Registry();
      pool := new ThreadPool();
      queue := new MsgQueue();
    }

    /** The receive loop of `Router::start` over the messages `msgrcv`
        delivers: each becomes a handling task at the back of the pool. */
    method Start(inbox: seq<Inbound>)
      modifies pool
      ensures pool.tasks == old(pool.tasks) + Handlers(inbox)
    {
      var i := 0;
      while i < |inbox|
        invariant 0 <= i <= |inbox|
        invariant |pool.tasks| == |old(pool.tasks)| + i
        invariant pool.tasks[..|old(pool.tasks)|] == old(pool.tasks)
        invariant forall j :: 0 <= j < i ==> pool.tasks[|old(pool.tasks)| + j] == Handle(inbox[j])
      {
        pool.Enqueue(Handle(inbox[i]));
        i := i + 1;
      }
    }

    /** `Router::handleMessage`: parse, then dispatch. */
    method HandleMessage(m: Inbound) returns (outcome: Outcome)
      requires reg.Valid() && Defined(m)
      modifies reg, reg.rooms.Values, pool, queue
      ensures reg.Valid()
      ensures var e := Step(old(reg.View()), m);
              reg.View() == e.reg && queue.sent == old(queue.sent) + e.sent &&
              pool.tasks == old(pool.tasks) + SendTasks(e.queued) && outcome == e.outcome
    {
      var s := ScanCommand(m.text);
      outcome := Dispatch(m.clientPid, s);
    }

    /** The body of `handleMessage` after `sscanf`: register the sender and
        act on the verb. */
    method Dispatch(clientID: int, s: Scanned) returns (outcome: Outcome)
      requires reg.Valid()
      modifies reg, reg.rooms.Values, pool, queue
      ensures reg.Valid() && reg.Grown()
      ensures var e := DispatchEffect(old(reg.View()), clientID, s);
              reg.View() == e.reg && queue.sent == old(queue.sent) + e.sent &&
              pool.tasks == old(pool.tasks) + SendTasks(e.queued) && outcome == e.outcome
    {
      var cmdStr := s.cmd;
      var roomStr := if s.n >= 2 then s.room else "";
      var textStr := if s.n == 3 then s.text else "";
      var client := reg.CreateOrFindClient(clientID);
      if cmdStr == "join" && s.n >= 2 {
        reg.Join(roomStr, client);
        outcome := Joined;
      } else if cmdStr == "say" && s.n >= 3 {
        Say(roomStr, textStr);
        outcome := Said;
      } else if cmdStr == "dm" && s.n >= 3 {
        var id := Stoi(roomStr);
        if id.None? {
          return BadTarget;
        }
        var target := reg.CreateOrFindClient(id.value);
        target.Boardcast(textStr, queue);
        outcome := Messaged;
      } else if cmdStr == "leave" && s.n >= 2 {
        var found := reg.Leave(roomStr, client);
        outcome := Left(found);
      } else if cmdStr == "Pulse" {
        outcome := Pulsed;
      } else {
        outcome := Ignored;
      }
    }

    /** The `say` branch: find or create the room and broadcast to it. */
    method Say(roomName: string, text: string)
      requires reg.Valid()
      modifies reg, pool
      ensures reg.Valid() && reg.Grown() && reg.View() == AddRoom(old(reg.View()), roomName)
      ensures pool.tasks == old(pool.tasks) + SendTasks(BroadcastMsgs(MembersOf(old(reg.View()), roomName), text))
    {
      var room := reg.CreateOrFindRoom(roomName);
      BoardCast(room, text, pool);
    }
  }
}
