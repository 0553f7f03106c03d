/** app/server.cpp: the single-threaded router. It dispatches every received
    message inside its receive loop, and a room broadcast issues one `msgsnd`
    per member in member order. */
module Server {
  import opened CText
  import opened Scanf
  import opened Convert
  import opened Transport
  import opened Chat
  import ServerMtp

  /** `Room::BoardCast(text)`: the text is copied into one buffer once, then
      the buffer is sent to each member in member order, only its `msg_type`
      rewritten; the members are only read. */
  method BoardCast(room: Room, text: string, q: MsgQueue)
    modifies q
    ensures q.sent == old(q.sent) + BroadcastMsgs(room.members, text)
  {
    var payload := Payload(text);
    var i := 0;
    while i < |room.members|
      invariant 0 <= i <= |room.members|
      invariant |q.sent| == |old(q.sent)| + i
      invariant q.sent[..|old(q.sent)|] == old(q.sent)
      invariant forall j :: 0 <= j < i ==> q.sent[|old(q.sent)| + j] == MessageTo(room.members[j], text)
    {
      q.Send(Outbound(room.members[i], payload));
      i := i + 1;
    }
  }

  /** A message the loop body can process without undefined behaviour: `cmd`
      is assigned, no token overflows its buffer, and `text` is assigned
      whenever it is read, which `say` and a `dm` with a valid target do
      already at `n >= 2`. */
  predicate Defined(m: Inbound): (d: bool)
    ensures d ==> !AllSpace(m.text) && FitsBuffers(ScanCommand(m.text))
    ensures ScanCommand(m.text).cmd == "say" && ScanCommand(m.text).n == 2 ==> !d
  {
    var s := ScanCommand(m.text);
    s.n != EOF && FitsBuffers(s) && (TextRead(s) ==> s.n == 3)
  }

  /** The branch taken reads the `text` buffer. */
  predicate TextRead(s: Scanned): (b: bool)
    ensures b ==> s.n >= 2 && (s.cmd == "say" || s.cmd == "dm")
  {
    s.cmd != "help" && s.n >= 2 && (s.cmd == "say" || (s.cmd == "dm" && Stoi(s.room).Some?))
  }

  /** The effect of one pass of the loop body: the new maps, the messages
      sent, and the branch. */
  datatype Effect = Effect(reg: Reg, sent: seq<Outbound>, outcome: Outcome)

  /** The loop body of `Router::start` after `sscanf`, on the maps: "help"
      is looked at first, and every other verb needs only `n >= 2`. */
  function DispatchEffect(r: Reg, pid: int, s: Scanned): (e: Effect)
    requires TextRead(s) ==> s.n == 3
    ensures pid in e.reg.clients
    ensures forall k :: k in r.clients ==> k in e.reg.clients && e.reg.clients[k] == r.clients[k]
    ensures ClientsNamed(r.clients) ==> ClientsNamed(e.reg.clients)
    ensures r.rooms.Keys <= e.reg.rooms.Keys
  {
    var roomStr := s.room;
    var r1 := AddClient(r, pid);
    if s.cmd == "help" && s.n >= 1 then
      Effect(r1, [], Helped)
    else if s.cmd == "join" && s.n >= 2 then
      Effect(JoinRoom(r1, roomStr, pid), [], Joined)
    else if s.cmd == "say" && s.n >= 2 then
      Effect(AddRoom(r1, roomStr), BroadcastMsgs(MembersOf(r1, roomStr), s.text), Said)
    else if s.cmd == "dm" && s.n >= 2 then
      match Stoi(roomStr)
      case None => Effect(r1, [], BadTarget)
      case Some(target) => Effect(AddClient(r1, target), [MessageTo(target, s.text)], Messaged)
    else if s.cmd == "leave" && s.n >= 2 then
      Effect(LeaveRoom(r1, roomStr, pid), [], Left(pid in MembersOf(r1, roomStr)))
    else if s.cmd == "Pulse" && s.n >= 2 then
      Effect(r1, [], Pulsed)
    else
      Effect(r1, [], Ignored)
  }

  /** One pass of the loop body on a received message. */
  function Step(r: Reg, m: Inbound): (e: Effect)
    requires Defined(m)
    ensures m.clientPid in e.reg.clients
    ensures forall k :: k in r.clients ==> k in e.reg.clients && e.reg.clients[k] == r.clients[k]
  {
    DispatchEffect(r, m.clientPid, ScanCommand(m.text))
  }

  // ---- what one message does ----

  /** A message whose tokens are known steps by them. */
  lemma StepOf(r: Reg, m: Inbound, s: Scanned)
    requires ScanCommand(m.text) == s && s.n != EOF && FitsBuffers(s) && (TextRead(s) ==> s.n == 3)
    ensures Defined(m) && Step(r, m) == DispatchEffect(r, m.clientPid, s)
  {
  }

  /** Any command but `join`, `say`, `dm` and `leave` with at least a room,
      "help" and "Pulse" among them, registers the sender and changes
      nothing else. */
  lemma InertCommands(r: Reg, pid: int, s: Scanned)
    requires !((s.cmd == "join" || s.cmd == "say" || s.cmd == "dm" || s.cmd == "leave") && s.n >= 2)
    ensures var e := DispatchEffect(r, pid, s);
            e.reg == AddClient(r, pid) && e.sent == [] &&
            e.outcome == if s.cmd == "help" && s.n >= 1 then Helped
                         else if s.cmd == "Pulse" && s.n >= 2 then Pulsed
                         else Ignored
  {
  }

  /** `join` with a room: the sender is appended to it. */
  lemma JoinEffect(r: Reg, p: int, s: Scanned)
    requires s.cmd == "join" && s.n >= 2
    ensures DispatchEffect(r, p, s) == Effect(JoinRoom(AddClient(r, p), s.room, p), [], Joined)
  {
  }

  /** `leave` with a room: the sender's first entry goes, if there is one. */
  lemma LeaveEffect(r: Reg, p: int, s: Scanned)
    requires s.cmd == "leave" && s.n >= 2
    ensures DispatchEffect(r, p, s)
            == Effect(LeaveRoom(AddClient(r, p), s.room, p), [], Left(p in MembersOf(r, s.room)))
  {
    assert MembersOf(AddClient(r, p), s.room) == MembersOf(r, s.room);
  }

  /** `say` with a room and a text: the text goes to the members as they
      were, the room created if new. */
  lemma SayEffect(r: Reg, p: int, s: Scanned)
    requires s.cmd == "say" && s.n == 3
    ensures DispatchEffect(r, p, s)
            == Effect(AddRoom(AddClient(r, p), s.room), BroadcastMsgs(MembersOf(r, s.room), s.text), Said)
  {
    assert MembersOf(AddClient(r, p), s.room) == MembersOf(r, s.room);
  }

  /** `dm` with a target that `stoi` reads: that client gets the text token. */
  lemma DmEffect(r: Reg, pid: int, s: Scanned, target: int)
    requires s.cmd == "dm" && s.n == 3 && Stoi(s.room) == Some(target)
    ensures DispatchEffect(r, pid, s)
            == Effect(AddClient(AddClient(r, pid), target), [MessageTo(target, s.text)], Messaged)
  {
    var e := DispatchEffect(r, pid, s);
    assert |s.cmd| == 2;
    assert e.outcome == Messaged;
    assert e.reg == AddClient(AddClient(r, pid), target) && e.sent == [MessageTo(target, s.text)];
  }

  /** "say <room>" without a text reads the uninitialised `text` buffer. */
  lemma SayWithoutTextUndefined(p: int, room: string)
    requires Word(room)
    ensures !Defined(Inbound(p, "say" + " " + room))
  {
    assert ScanCommand("say" + " " + room) == Scanned(2, "say", room, "") by {
      VerbsAreWords();
      ScanVerbRoom("say", room);
    }
  }

  /** "join <room>": with only `n >= 2` the sender is appended to the room,
      created if new. */
  lemma JoinStep(r: Reg, p: int, room: string)
    requires Word(room) && |room| < 50
    ensures Defined(Inbound(p, "join" + " " + room))
    ensures Step(r, Inbound(p, "join" + " " + room)) == Effect(JoinRoom(AddClient(r, p), room, p), [], Joined)
  {
    var m := Inbound(p, "join" + " " + room);
    assert ScanCommand(m.text) == Scanned(2, "join", room, "") by { VerbsAreWords(); ScanVerbRoom("join", room); }
    JoinMessage(r, m, room);
  }

  /** A message that scans to "join" and a room that fits its buffer. */
  lemma JoinMessage(r: Reg, m: Inbound, room: string)
    requires ScanCommand(m.text) == Scanned(2, "join", room, "") && |room| < 50
    ensures Defined(m) && Step(r, m) == Effect(JoinRoom(AddClient(r, m.clientPid), room, m.clientPid), [], Joined)
  {
    var s := Scanned(2, "join", room, "");
    StepOf(r, m, s);
    JoinEffect(r, m.clientPid, s);
  }

  /** "leave <room>": the sender's first entry is removed from the room,
      created if new. */
  lemma LeaveStep(r: Reg, p: int, room: string)
    requires Word(room) && |room| < 50
    ensures Defined(Inbound(p, "leave" + " " + room))
    ensures Step(r, Inbound(p, "leave" + " " + room))
            == Effect(LeaveRoom(AddClient(r, p), room, p), [], Left(p in MembersOf(r, room)))
  {
    var m := Inbound(p, "leave" + " " + room);
    assert ScanCommand(m.text) == Scanned(2, "leave", room, "") by { VerbsAreWords(); ScanVerbRoom("leave", room); }
    LeaveMessage(r, m, room);
  }

  /** A message that scans to "leave" and a room that fits its buffer. */
  lemma LeaveMessage(r: Reg, m: Inbound, room: string)
    requires ScanCommand(m.text) == Scanned(2, "leave", room, "") && |room| < 50
    ensures Defined(m)
    ensures Step(r, m) == Effect(LeaveRoom(AddClient(r, m.clientPid), room, m.clientPid), [], Left(m.clientPid in MembersOf(r, room)))
  {
    var s := Scanned(2, "leave", room, "");
    StepOf(r, m, s);
    LeaveEffect(r, m.clientPid, s);
  }

  /** "say <room> <text>": the text goes to every member of the room,
      created if new, in member order. */
  lemma SayStep(r: Reg, p: int, room: string, text: string)
    requires Word(room) && |room| < 50 && TextToken(text) && |text| < 200
    ensures Defined(Inbound(p, "say" + " " + room + " " + text))
    ensures Step(r, Inbound(p, "say" + " " + room + " " + text))
            == Effect(AddRoom(AddClient(r, p), room), BroadcastMsgs(MembersOf(r, room), text), Said)
  {
    var s := Scanned(3, "say", room, text);
    assert ScanCommand("say" + " " + room + " " + text) == s by { VerbsAreWords(); ScanCommandLine("say", room, text); }
    StepOf(r, Inbound(p, "say" + " " + room + " " + text), s);
    SayEffect(r, p, s);
  }

  /** "dm <id> <text>" whose id `stoi` reads: client `stoi(id)` is
      registered and sent exactly one message; no room changes. */
  lemma DmStep(r: Reg, pid: int, name: string, target: int, text: string)
    requires Word(name) && |name| < 50 && Stoi(name) == Some(target)
    requires TextToken(text) && |text| < 200
    ensures Defined(Inbound(pid, "dm" + " " + name + " " + text))
    ensures Step(r, Inbound(pid, "dm" + " " + name + " " + text))
            == Effect(AddClient(AddClient(r, pid), target), [MessageTo(target, text)], Messaged)
  {
    var s := Scanned(3, "dm", name, text);
    assert ScanCommand("dm" + " " + name + " " + text) == s by {
      VerbsAreWords();
      ScanCommandLine("dm", name, text);
    }
    StepOf(r, Inbound(pid, "dm" + " " + name + " " + text), s);
    DmEffect(r, pid, s, target);
  }

  /** "dm <to_string(id)> <text>": client `id` gets the text, for every `int`. */
  lemma DmToString(r: Reg, pid: int, target: int, text: string)
    requires IsInt(target) && TextToken(text) && |text| < 200
    ensures Defined(Inbound(pid, "dm" + " " + ToString(target) + " " + text))
    ensures Step(r, Inbound(pid, "dm" + " " + ToString(target) + " " + text))
            == Effect(AddClient(AddClient(r, pid), target), [MessageTo(target, text)], Messaged)
  {
    var name := ToString(target);
    assert |name| < 50 && Stoi(name) == Some(target) by {
      ToStringLength(target);
      StoiToString(target);
    }
    DmStep(r, pid, name, target, text);
  }

  /** On a full command, with a room and a text, this router and the pool
      router of app/servermtp.cpp change the maps alike, and this one sends
      directly, in the same order, what the other sends or enqueues; only
      "help" is told apart. */
  lemma SameAsPoolRouter(r: Reg, pid: int, s: Scanned)
    requires s.n == 3
    ensures var e := DispatchEffect(r, pid, s);
            var f := ServerMtp.DispatchEffect(r, pid, s);
            e.reg == f.reg && e.sent == f.sent + f.queued &&
            e.outcome == if s.cmd == "help" then Helped else f.outcome
  {
  }

  /** What the receive loop does with the messages it gets: the maps at the
      end, every message sent, and how many messages were handled. */
  datatype Run = Run(reg: Reg, sent: seq<Outbound>, handled: nat)

  /** Every message the loop reaches is defined; a `dm` whose target `stoi`
      rejects ends the process, so nothing after it is reached. */
  predicate Runs(r: Reg, inbox: seq<Inbound>): (b: bool)
    ensures b && inbox != [] ==> Defined(inbox[0])
    decreases |inbox|
  {
    inbox == [] ||
    (Defined(inbox[0]) && (Step(r, inbox[0]).outcome != BadTarget ==> Runs(Step(r, inbox[0]).reg, inbox[1..])))
  }

  /** The loop over `inbox`, stopping after a message whose target `stoi` rejects. */
  function RunFrom(r: Reg, inbox: seq<Inbound>): (run: Run)
    requires Runs(r, inbox)
    ensures run.handled <= |inbox|
    ensures inbox != [] ==> run.handled > 0
    ensures ClientsNamed(r.clients) ==> ClientsNamed(run.reg.clients)
    decreases |inbox|
  {
    if inbox == [] then Run(r, [], 0)
    else
      var e := Step(r, inbox[0]);
      if e.outcome == BadTarget then Run(e.reg, e.sent, 1)
      else
        var rest := RunFrom(e.reg, inbox[1..]);
        Run(rest.reg, e.sent + rest.sent, 1 + rest.handled)
  }

  /** The loop's first pass, and what is left after it. */
  lemma RunFromFirst(r: Reg, inbox: seq<Inbound>)
    requires inbox != [] && Runs(r, inbox)
    ensures Defined(inbox[0])
    ensures var e := Step(r, inbox[0]);
            if e.outcome == BadTarget then RunFrom(r, inbox) == Run(e.reg, e.sent, 1)
            else Runs(e.reg, inbox[1..]) &&
                 var rest := RunFrom(e.reg, inbox[1..]);
                 RunFrom(r, inbox) == Run(rest.reg, e.sent + rest.sent, 1 + rest.handled)
  {
  }

  /** `class Router`: the two maps and the outgoing queue. */
  class Router {
    const reg: Registry
    const queue: MsgQueue

    constructor()
      ensures fresh(reg) && fresh(queue)
      ensures reg.Valid() && reg.View() == Empty && queue.sent == []
    {
      reg := new Registry();
      queue := new MsgQueue();
    }

    /** `Router::start` over the messages `msgrcv` delivers before it fails:
        dispatch each in turn; a `dm` whose target `stoi` rejects throws out
        of the loop and ends the process. */
    method Start(inbox: seq<Inbound>) returns (handled: nat)
      requires reg.Valid() && Runs(reg.View(), inbox)
      modifies reg, reg.rooms.Values, queue
      ensures reg.Valid()
      ensures var run := RunFrom(old(reg.View()), inbox);
              reg.View() == run.reg && queue.sent == old(queue.sent) + run.sent && handled == run.handled
    {
      ghost var final := RunFrom(reg.View(), inbox);
      ghost var run := final;
      var i := 0;
      while i < |inbox|
        invariant 0 <= i <= |inbox| && reg.Valid() && reg.Grown()
        invariant Runs(reg.View(), inbox[i..]) && run == RunFrom(reg.View(), inbox[i..])
        invariant run.reg == final.reg && queue.sent + run.sent == old(queue.sent) + final.sent
        invariant i + run.handled == final.handled
      {
        assert inbox[i..][1..] == inbox[i + 1..];
        var outcome := Receive(inbox[i..], run);
        if outcome == BadTarget {
          return i + 1;
        }
        i := i + 1;
        run := RunFrom(reg.View(), inbox[i..]);
      }
      assert queue.sent + [] == queue.sent;
      handled := i;
    }

    /** One pass of the receive loop, on the first message of `inbox`; `run`
        is what the loop does from here, and the pass completes its first
        step. */
    method Receive(inbox: seq<Inbound>, ghost run: Run) returns (outcome: Outcome)
      requires reg.Valid() && inbox != [] && Runs(reg.View(), inbox) && run == RunFrom(reg.View(), inbox)
      modifies reg, reg.rooms.Values, queue
      ensures reg.Valid() && reg.Grown()
      ensures outcome == BadTarget ==>
                reg.View() == run.reg && queue.sent == old(queue.sent) + run.sent && run.handled == 1
      ensures outcome != BadTarget ==>
                Runs(reg.View(), inbox[1..]) &&
                var rest := RunFrom(reg.View(), inbox[1..]);
                rest.reg == run.reg && queue.sent + rest.sent == old(queue.sent) + run.sent &&
                rest.handled + 1 == run.handled
    {
      RunFromFirst(reg.View(), inbox);
      var message := inbox[0];
      ghost var sent := queue.sent;
      outcome := Dispatch(message.clientPid, ScanCommand(message.text));
      if outcome != BadTarget {
        SeqAssoc(sent, Step(old(reg.View()), message).sent, RunFrom(reg.View(), inbox[1..]).sent);
      }
    }

    /** One pass of the loop body after `sscanf`: register the sender and act
        on the verb. */
    method Dispatch(clientID: int, s: Scanned) returns (outcome: Outcome)
      requires reg.Valid() && (TextRead(s) ==> s.n == 3)
      modifies reg, reg.rooms.Values, queue
      ensures reg.Valid() && reg.Grown()
      ensures var e := DispatchEffect(old(reg.View()), clientID, s);
              reg.View() == e.reg && queue.sent == old(queue.sent) + e.sent && outcome == e.outcome
    {
      var cmdStr := s.cmd;
      var roomStr := s.room;
      var client := reg.CreateOrFindClient(clientID);
      if cmdStr == "help" && s.n >= 1 {
        outcome := Helped;
      } else if cmdStr == "join" && s.n >= 2 {
        reg.Join(roomStr, client);
        outcome := Joined;
      } else if cmdStr == "say" && s.n >= 2 {
        Say(roomStr, s.text);
        outcome := Said;
      } else if cmdStr == "dm" && s.n >= 2 {
        var id := Stoi(roomStr);
        if id.None? {
          return BadTarget;
        }
        var target := reg.CreateOrFindClient(id.value);
        target.Boardcast(s.text, queue);
        outcome := Messaged;
      } else if cmdStr == "leave" && s.n >= 2 {
        var found := reg.Leave(roomStr, client);
        outcome := Left(found);
      } else if cmdStr == "Pulse" && s.n >= 2 {
        outcome := Pulsed;
      } else {
        outcome := Ignored;
      }
    }

    /** The `say` branch: find or create the room and send to its members. */
    method Say(roomName: string, text: string)
      requires reg.Valid()
      modifies reg, queue
      ensures reg.Valid() && reg.Grown() && reg.View() == AddRoom(old(reg.View()), roomName)
      ensures queue.sent == old(queue.sent) + BroadcastMsgs(MembersOf(old(reg.View()), roomName), text)
    {
      var room := reg.CreateOrFindRoom(roomName);
      BoardCast(room, text, queue);
    }
  }
}
