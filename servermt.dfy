/** app/old/servermt.cpp: the router whose receiver thread parses every
    message into a task on a FIFO queue, and whose worker threads take tasks
    from the front and dispatch them without looking at the token count. A
    room broadcast starts one `std::async` send per member and waits for all
    of them. */
module ServerMt {
  import opened CText
  import opened Scanf
  import opened Convert
  import opened Transport
  import opened Chat
  import ServerMtp

  /** `struct BroadcastTask`. */
  datatype BroadcastTask = BroadcastTask(cmd: string, roomName: string, message: string, clientPid: int)

  /** The receiver's parse: the three buffers start out empty, `room_name`
      is the room token only when `n >= 2` and `message` the text token only
      when `n == 3`. */
  function ParseTask(m: Inbound): (t: BroadcastTask)
    ensures t.clientPid == m.clientPid
    ensures t.cmd == "" <==> AllSpace(m.text)
    ensures ScanCommand(m.text).n < 2 ==> t.roomName == ""
    ensures ScanCommand(m.text).n < 3 ==> t.message == ""
  {
    var s := ScanCommand(m.text);
    BroadcastTask(s.cmd, if s.n >= 2 then s.room else "", if s.n == 3 then s.text else "", m.clientPid)
  }

  /** One task per received message, in order. */
  function ParseTasks(inbox: seq<Inbound>): (ts: seq<BroadcastTask>)
    ensures |ts| == |inbox|
    ensures forall i :: 0 <= i < |inbox| ==> ts[i] == ParseTask(inbox[i])
  {
    if inbox == [] then [] else [ParseTask(inbox[0])] + ParseTasks(inbox[1..])
  }

  /** No token of the message overflows its buffer. */
  predicate Fits(m: Inbound): (f: bool)
    ensures f ==> var t := ParseTask(m); |t.cmd| < 10 && |t.roomName| < 50 && |t.message| < 200
  {
    FitsBuffers(ScanCommand(m.text))
  }

  /** `Room::BoardCast(text)`: one `std::async` send per member; they reach
      `msgsnd` in an order the scheduler picks, and the call returns after
      all of them. Each member gets the message once; the members are only
      read. */
  method BoardCast(room: Room, text: string, q: MsgQueue) returns (ghost order: seq<int>)
    modifies q
    ensures multiset(order) == multiset(room.members)
    ensures q.sent == old(q.sent) + BroadcastMsgs(order, text)
  {
    assert multiset(room.members) == multiset(room.members);
    var members :| multiset(members) == multiset(room.members);
    order := members;
    var payload := Payload(text);
    var i := 0;
    while i < |members|
      invariant 0 <= i <= |members|
      invariant |q.sent| == |old(q.sent)| + i
      invariant q.sent[..|old(q.sent)|] == old(q.sent)
      invariant forall j :: 0 <= j < i ==> q.sent[|old(q.sent)| + j] == MessageTo(members[j], text)
    {
      q.Send(Outbound(members[i], payload));
      i := i + 1;
    }
  }

  /** The effect of one task: the new maps, the messages sent (for a room
      broadcast, in member order), and the branch. */
  datatype Effect = Effect(reg: Reg, sent: seq<Outbound>, outcome: Outcome)

  /** The worker's dispatch of one task: the sender is registered first;
      only the verb decides, and "pulse" is spelt in lower case. */
  function TaskEffect(r: Reg, t: BroadcastTask): (e: Effect)
    ensures t.clientPid in e.reg.clients
    ensures forall k :: k in r.clients ==> k in e.reg.clients && e.reg.clients[k] == r.clients[k]
    ensures ClientsNamed(r.clients) ==> ClientsNamed(e.reg.clients)
    ensures r.rooms.Keys <= e.reg.rooms.Keys
  {
    var pid := t.clientPid;
    var r1 := AddClient(r, pid);
    if t.cmd == "join" then
      Effect(JoinRoom(r1, t.roomName, pid), [], Joined)
    else if t.cmd == "say" then
      Effect(AddRoom(r1, t.roomName), BroadcastMsgs(MembersOf(r1, t.roomName), t.message), Said)
    else if t.cmd == "dm" then
      match Stoi(t.roomName)
      case None => Effect(r1, [], BadTarget)
      case Some(target) => Effect(AddClient(r1, target), [MessageTo(target, t.message)], Messaged)
    else if t.cmd == "leave" then
      Effect(LeaveRoom(r1, t.roomName, pid), [], Left(pid in MembersOf(r1, t.roomName)))
    else if t.cmd == "pulse" then
      Effect(r1, [], Pulsed)
    else
      Effect(r1, [], Ignored)
  }

  // ---- what one message does ----

  /** A message in the shape the clients send parses to its three tokens. */
  lemma ParseCommandLine(pid: int, cmd: string, room: string, text: string)
    requires Word(cmd) && Word(room) && TextToken(text)
    ensures ParseTask(Inbound(pid, cmd + " " + room + " " + text)) == BroadcastTask(cmd, room, text, pid)
  {
    ScanCommandLine(cmd, room, text);
  }

  /** A task whose verb is none of the four only registers the sender;
      "pulse" is told apart from the rest. */
  lemma InertTasks(r: Reg, t: BroadcastTask)
    requires t.cmd != "join" && t.cmd != "say" && t.cmd != "dm" && t.cmd != "leave"
    ensures var e := TaskEffect(r, t);
            e.reg == AddClient(r, t.clientPid) && e.sent == [] &&
            e.outcome == if t.cmd == "pulse" then Pulsed else Ignored
  {
  }

  /** "join" without a room joins the room named "" (creating it). */
  lemma JoinWithoutRoom(r: Reg, pid: int, trail: string)
    requires AllSpace(trail)
    ensures ParseTask(Inbound(pid, "join" + trail)) == BroadcastTask("join", "", "", pid)
    ensures var e := TaskEffect(r, BroadcastTask("join", "", "", pid));
            "" in e.reg.rooms && e.reg.rooms[""] == MembersOf(r, "") + [pid] && e.outcome == Joined
  {
    VerbsAreWords();
    ScanVerb("join", trail);
  }

  /** "say" with a room and no text sends an empty text to every member, in
      member order. */
  lemma SayWithoutText(r: Reg, pid: int, room: string)
    requires Word(room)
    ensures ParseTask(Inbound(pid, "say" + " " + room)) == BroadcastTask("say", room, "", pid)
    ensures var e := TaskEffect(r, BroadcastTask("say", room, "", pid));
            e.sent == BroadcastMsgs(MembersOf(r, room), "")
  {
    VerbsAreWords();
    ScanVerbRoom("say", room);
    assert MembersOf(AddClient(r, pid), room) == MembersOf(r, room);
  }

  /** "dm" without a target: `stoi("")` throws, which ends the process. */
  lemma DmWithoutTarget(r: Reg, pid: int, trail: string)
    requires AllSpace(trail)
    ensures ParseTask(Inbound(pid, "dm" + trail)) == BroadcastTask("dm", "", "", pid)
    ensures TaskEffect(r, BroadcastTask("dm", "", "", pid)).outcome == BadTarget
  {
    VerbsAreWords();
    ScanVerb("dm", trail);
  }

  /** "leave" for a room nobody has named creates it empty and reports
      that the sender was not a member. */
  lemma LeaveUnseenRoom(r: Reg, t: BroadcastTask)
    requires t.cmd == "leave" && t.roomName !in r.rooms
    ensures var e := TaskEffect(r, t);
            e.reg.rooms == r.rooms[t.roomName := []] && e.sent == [] && e.outcome == Left(false)
  {
  }

  /** On a full command this router and the pool router of
      app/servermtp.cpp change the maps alike and send the same messages;
      they tell the heartbeat apart by its spelling. */
  lemma SameAsPoolRouter(r: Reg, m: Inbound)
    requires ScanCommand(m.text).n == 3
    ensures var s := ScanCommand(m.text);
            var e := TaskEffect(r, ParseTask(m));
            var f := ServerMtp.DispatchEffect(r, m.clientPid, s);
            e.reg == f.reg && e.sent == f.sent + f.queued &&
            e.outcome == (if s.cmd == "pulse" then Pulsed else if s.cmd == "Pulse" then Ignored else f.outcome)
  {
    var s := ScanCommand(m.text);
    assert ParseTask(m) == BroadcastTask(s.cmd, s.room, s.text, m.clientPid);
    SameTask(r, m.clientPid, s);
  }

  lemma SameTask(r: Reg, pid: int, s: Scanned)
    requires s.n == 3
    ensures var e := TaskEffect(r, BroadcastTask(s.cmd, s.room, s.text, pid));
            var f := ServerMtp.DispatchEffect(r, pid, s);
            e.reg == f.reg && e.sent == f.sent + f.queued &&
            e.outcome == (if s.cmd == "pulse" then Pulsed else if s.cmd == "Pulse" then Ignored else f.outcome)
  {
    var t := BroadcastTask(s.cmd, s.room, s.text, pid);
    var r1 := AddClient(r, pid);
    if s.cmd == "join" {
      assert TaskEffect(r, t) == Effect(JoinRoom(r1, s.room, pid), [], Joined);
    } else if s.cmd == "say" {
      assert TaskEffect(r, t) == Effect(AddRoom(r1, s.room), BroadcastMsgs(MembersOf(r1, s.room), s.text), Said);
    } else if s.cmd == "dm" {
    } else if s.cmd == "leave" {
      assert TaskEffect(r, t) == Effect(LeaveRoom(r1, s.room, pid), [], Left(pid in MembersOf(r1, s.room)));
    } else {
      assert TaskEffect(r, t).reg == r1;
    }
  }

  /** What a worker does with the tasks in the queue: the maps at the end,
      the messages of each task handled, how many were handled, and whether
      it stopped at a `dm` whose target `stoi` rejects (which ends the
      process). */
  datatype Drained = Drained(reg: Reg, chunks: seq<seq<Outbound>>, handled: nat, stopped: bool)

  /** Handling the tasks from the front of the queue, one at a time. */
  function Drain(r: Reg, tasks: seq<BroadcastTask>): (d: Drained)
    ensures |d.chunks| == d.handled <= |tasks|
    ensures tasks != [] ==> d.handled > 0
    ensures !d.stopped ==> d.handled == |tasks|
    ensures ClientsNamed(r.clients) ==> ClientsNamed(d.reg.clients)
    decreases |tasks|
  {
    if tasks == [] then Drained(r, [], 0, false)
    else
      var e := TaskEffect(r, tasks[0]);
      if e.outcome == BadTarget then Drained(e.reg, [e.sent], 1, true)
      else
        var rest := Drain(e.reg, tasks[1..]);
        Drained(rest.reg, [e.sent] + rest.chunks, 1 + rest.handled, rest.stopped)
  }

  /** The worker keeps the queue's order: draining `a + b` drains `a`, and
      then, unless it stopped, `b`. */
  lemma {:induction false} DrainAppend(r: Reg, a: seq<BroadcastTask>, b: seq<BroadcastTask>)
    ensures var da := Drain(r, a);
            if da.stopped then Drain(r, a + b) == da
            else var db := Drain(da.reg, b);
                 Drain(r, a + b) == Drained(db.reg, da.chunks + db.chunks, da.handled + db.handled, db.stopped)
    decreases |a|
  {
    if a == [] {
      assert a + b == b;
    } else {
      var ab := a + b;
      assert ab[0] == a[0] && ab[1..] == a[1..] + b;
      var e := TaskEffect(r, a[0]);
      if e.outcome == BadTarget {
        assert Drain(r, ab) == Drained(e.reg, [e.sent], 1, true) == Drain(r, a);
      } else {
        DrainAppend(e.reg, a[1..], b);
        var rest := Drain(e.reg, a[1..]);
        var restab := Drain(e.reg, a[1..] + b);
        assert Drain(r, a) == Drained(rest.reg, [e.sent] + rest.chunks, 1 + rest.handled, rest.stopped);
        assert Drain(r, ab) == Drained(restab.reg, [e.sent] + restab.chunks, 1 + restab.handled, restab.stopped);
        if !rest.stopped {
          SeqAssoc([e.sent], rest.chunks, Drain(rest.reg, b).chunks);
        }
      }
    }
  }

  /** Only a `dm` stops the worker: without one every task is handled. */
  lemma {:induction false} DrainWithoutDm(r: Reg, tasks: seq<BroadcastTask>)
    requires forall i :: 0 <= i < |tasks| ==> tasks[i].cmd != "dm"
    ensures !Drain(r, tasks).stopped && Drain(r, tasks).handled == |tasks|
    decreases |tasks|
  {
    if tasks != [] {
      DrainWithoutDm(TaskEffect(r, tasks[0]).reg, tasks[1..]);
    }
  }

  /** The messages of all chunks, in chunk order. */
  function Flatten(chunks: seq<seq<Outbound>>): (out: seq<Outbound>)
    ensures chunks == [] ==> out == []
  {
    if chunks == [] then [] else chunks[0] + Flatten(chunks[1..])
  }

  lemma {:induction false} FlattenSnoc(chunks: seq<seq<Outbound>>, c: seq<Outbound>)
    ensures Flatten(chunks + [c]) == Flatten(chunks) + c
  {
    if chunks != [] {
      assert (chunks + [c])[1..] == chunks[1..] + [c];
      FlattenSnoc(chunks[1..], c);
    }
  }

  /** Each chunk holds the messages of the matching chunk of `spec`, in
      some order. */
  predicate Reorders(chunks: seq<seq<Outbound>>, spec: seq<seq<Outbound>>) {
    |chunks| == |spec| && forall i :: 0 <= i < |chunks| ==> multiset(chunks[i]) == multiset(spec[i])
  }

  /** The bookkeeping of one worker pass: the messages `chunk` just sent
      reorder the first chunk of what is left to drain. */
  lemma Advance(final: seq<seq<Outbound>>, done: seq<seq<Outbound>>, left: seq<seq<Outbound>>,
                chunks: seq<seq<Outbound>>, chunk: seq<Outbound>, base: seq<Outbound>)
    requires final == done + left && left != [] && Reorders(chunks, done)
    requires multiset(chunk) == multiset(left[0])
    ensures final == (done + [left[0]]) + left[1..]
    ensures base + Flatten(chunks) + chunk == base + Flatten(chunks + [chunk])
    ensures Reorders(chunks + [chunk], done + [left[0]])
  {
    assert left == [left[0]] + left[1..];
    assert done + ([left[0]] + left[1..]) == (done + [left[0]]) + left[1..];
    FlattenSnoc(chunks, chunk);
  }

  /** The worker's first task, and what is left of the drain after it. */
  lemma DrainFirst(r: Reg, tasks: seq<BroadcastTask>, d: Drained)
    requires tasks != [] && d == Drain(r, tasks)
    ensures var e := TaskEffect(r, tasks[0]);
            d.handled > 0 && d.chunks[0] == e.sent &&
            (e.outcome == BadTarget ==> d.reg == e.reg && d.handled == 1 && d.stopped) &&
            (e.outcome != BadTarget ==> Drain(e.reg, tasks[1..]) == Drained(d.reg, d.chunks[1..], d.handled - 1, d.stopped))
  {
  }

  /** `class Router`: the two maps, the outgoing queue, and the task queue. */
  class Router {
    const reg: Registry
    const queue: MsgQueue
    var taskQueue: seq<BroadcastTask>

    constructor()
      ensures fresh(reg) && fresh(queue)
      ensures reg.Valid() && reg.View() == Empty && queue.sent == [] && taskQueue == []
    {
      reg := new Registry();
      queue := new MsgQueue();
      taskQueue := [];
    }

    /** `Router::enqueueTask`: the task goes to the back of the queue. */
    method EnqueueTask(task: BroadcastTask)
      modifies this
      ensures taskQueue == old(taskQueue) + [task]
    {
      taskQueue := taskQueue + [task];
    }

    /** `Router::receiverThread` over the messages `msgrcv` delivers: each
        is parsed into a task and enqueued, in order. */
    method ReceiverThread(inbox: seq<Inbound>)
      requires forall i :: 0 <= i < |inbox| ==> Fits(inbox[i])
      modifies this
      ensures taskQueue == old(taskQueue) + ParseTasks(inbox)
    {
      var i := 0;
      while i < |inbox|
        invariant 0 <= i <= |inbox|
        invariant taskQueue + ParseTasks(inbox[i..]) == old(taskQueue) + ParseTasks(inbox)
      {
        var task := ParseTask(inbox[i]);
        assert inbox[i..][1..] == inbox[i + 1..];
        SeqAssoc(taskQueue, [task], ParseTasks(inbox[i + 1..]));
        EnqueueTask(task);
        i := i + 1;
      }
      assert taskQueue + [] == taskQueue;
    }

    /** The body of `Router::workerThread` after it took `task` from the
        queue. A room broadcast sends the messages of the room in some
        order; every other task sends exactly its messages. */
    method HandleTask(task: BroadcastTask) returns (outcome: Outcome, ghost chunk: seq<Outbound>)
      requires reg.Valid()
      modifies reg, reg.rooms.Values, queue
      ensures reg.Valid() && reg.Grown()
      ensures var e := TaskEffect(old(reg.View()), task);
              reg.View() == e.reg && outcome == e.outcome && queue.sent == old(queue.sent) + chunk &&
              multiset(chunk) == multiset(e.sent) && (task.cmd != "say" ==> chunk == e.sent)
    {
      chunk := [];
      var client := reg.CreateOrFindClient(task.clientPid);
      if task.cmd == "join" {
        reg.Join(task.roomName, client);
        outcome := Joined;
      } else if task.cmd == "say" {
        chunk := Say(task.roomName, task.message);
        outcome := Said;
      } else if task.cmd == "dm" {
        var id := Stoi(task.roomName);
        if id.None? {
          outcome := BadTarget;
          return;
        }
        var target := reg.CreateOrFindClient(id.value);
        target.Boardcast(task.message, queue);
        chunk := [MessageTo(id.value, task.message)];
        outcome := Messaged;
      } else if task.cmd == "leave" {
        var found := reg.Leave(task.roomName, client);
        outcome := Left(found);
      } else if task.cmd == "pulse" {
        outcome := Pulsed;
      } else {
        outcome := Ignored;
      }
    }

    /** The "say" branch: `CreateOrFindRoom(room_name)->BoardCast(message)`. */
    method Say(name: string, message: string) returns (ghost chunk: seq<Outbound>)
      requires reg.Valid()
      modifies reg, queue
      ensures reg.Valid() && reg.Grown() && reg.View() == AddRoom(old(reg.View()), name)
      ensures queue.sent == old(queue.sent) + chunk
      ensures multiset(chunk) == multiset(BroadcastMsgs(MembersOf(old(reg.View()), name), message))
    {
      ghost var r := reg.View();
      var room := reg.CreateOrFindRoom(name);
      assert room.members == MembersOf(r, name) by {
        assert reg.View().rooms[name] == room.members;
      }
      var order := BoardCast(room, message, queue);
      BroadcastReordered(room.members, order, message);
      chunk := BroadcastMsgs(order, message);
    }

    /** One pass of `Router::workerThread`'s loop with a task in the queue:
        take the front task and handle it. `d` is what draining the queue
        from here would do; the pass completes its first step. */
    method TakeTask(ghost d: Drained) returns (outcome: Outcome, ghost chunk: seq<Outbound>)
      requires reg.Valid() && taskQueue != [] && d == Drain(reg.View(), taskQueue)
      modifies this, reg, reg.rooms.Values, queue
      ensures reg.Valid() && reg.Grown() && taskQueue == old(taskQueue)[1..] && d.handled > 0
      ensures queue.sent == old(queue.sent) + chunk && multiset(chunk) == multiset(d.chunks[0])
      ensures outcome == BadTarget ==> reg.View() == d.reg && d.handled == 1
      ensures outcome != BadTarget ==>
                Drain(reg.View(), taskQueue) == Drained(d.reg, d.chunks[1..], d.handled - 1, d.stopped)
    {
      ghost var before := reg.View();
      ghost var tasks := taskQueue;
      var task := taskQueue[0];
      outcome, chunk := HandleTask(task);
      taskQueue := taskQueue[1..];
      DrainFirst(before, tasks, d);
      ghost var e := TaskEffect(before, task);
      assert reg.View() == e.reg && outcome == e.outcome && taskQueue == tasks[1..];
    }

    /** `Router::workerThread` as the only consumer: take tasks from the
        front of the queue and handle them, until the queue is empty (where
        the thread would wait) or a `dm` target that `stoi` rejects ends the
        process. `chunks` are the messages of each task handled, in order. */
    method WorkerThread() returns (handled: nat, ghost chunks: seq<seq<Outbound>>)
      requires reg.Valid()
      modifies this, reg, reg.rooms.Values, queue
      ensures reg.Valid()
      ensures var d := Drain(old(reg.View()), old(taskQueue));
              reg.View() == d.reg && handled == d.handled && taskQueue == old(taskQueue)[handled..] &&
              queue.sent == old(queue.sent) + Flatten(chunks) && Reorders(chunks, d.chunks)
    {
      ghost var final := Drain(reg.View(), taskQueue);
      ghost var d := final;
      ghost var done: seq<seq<Outbound>> := [];
      handled := 0;
      chunks := [];
      while taskQueue != []
        invariant reg.Valid() && reg.Grown()
        invariant handled <= |old(taskQueue)| && taskQueue == old(taskQueue)[handled..]
        invariant d == Drain(reg.View(), taskQueue)
        invariant d.reg == final.reg && handled + d.handled == final.handled
        invariant final.chunks == done + d.chunks && |done| == handled
        invariant queue.sent == old(queue.sent) + Flatten(chunks) && Reorders(chunks, done)
        decreases |taskQueue|
      {
        var outcome, chunk := TakeTask(d);
        Advance(final.chunks, done, d.chunks, chunks, chunk, old(queue.sent));
        chunks := chunks + [chunk];
        done := done + [d.chunks[0]];
        handled := handled + 1;
        if outcome == BadTarget {
          assert final.chunks == done;
          return;
        }
        d := Drain(reg.View(), taskQueue);
      }
    }
  }
}
