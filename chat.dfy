/** The parts every router variant shares: clients, rooms and the registry
    that finds or creates them. A room's `members` is a list of client pointers
    in the source; the registry keeps exactly one `Client` per id and `leave`
    compares ids, so a member is represented by its id. */
module Chat {
  import opened Transport
  import opened Convert

  // ---- clients ----

  /** A client: its name and its id (the process id it sends as). Its fields
      never change after construction. */
  datatype Client = Client(name: string, id: int)
  {
    /** `Client::boardcast`: one `msgsnd` to this client with the truncated text. */
    method Boardcast(text: string, q: MsgQueue)
      modifies q
      ensures q.sent == old(q.sent) + [MessageTo(id, text)]
    {
      var msg := Outbound(id, Payload(text));
      q.Send(msg);
    }
  }

  /** The client `CreateOrFindClient` makes for an id it has not seen. */
  function NewClient(id: int): (c: Client)
    ensures c.id == id && c.name == ToString(id)
  {
    Client(ToString(id), id)
  }

  // ---- room membership ----

  /** `members` with the first occurrence of `id` erased. */
  function RemoveFirst(members: seq<int>, id: int): (r: seq<int>)
    ensures id in members ==> |r| == |members| - 1
    ensures id !in members ==> r == members
  {
    if members == [] then []
    else if members[0] == id then members[1..]
    else [members[0]] + RemoveFirst(members[1..], id)
  }

  /** `leave` takes out one copy of the id, when there is one, and nothing else. */
  lemma {:induction false} RemoveFirstMultiset(members: seq<int>, id: int)
    ensures multiset(RemoveFirst(members, id)) == multiset(members) - multiset{id}
  {
    if members != [] {
      assert members == [members[0]] + members[1..];
      if members[0] != id {
        RemoveFirstMultiset(members[1..], id);
      }
    }
  }

  /** Removing the first occurrence erases exactly the first index that holds
      `id` and keeps the order of every other member. */
  lemma {:induction false} RemoveFirstAt(members: seq<int>, id: int, i: nat)
    requires i < |members| && members[i] == id
    requires forall j :: 0 <= j < i ==> members[j] != id
    ensures RemoveFirst(members, id) == members[..i] + members[i + 1..]
  {
    if i > 0 {
      RemoveFirstAt(members[1..], id, i - 1);
      assert members[1..][..i - 1] == members[1..i];
      assert members[1..][i..] == members[i + 1..];
      assert members[..i] == [members[0]] + members[1..i];
    }
  }

  /** A client that joined a room it was not in and then leaves it restores
      the member list. */
  lemma {:induction false} JoinThenLeave(members: seq<int>, id: int)
    requires id !in members
    ensures RemoveFirst(members + [id], id) == members
  {
    RemoveFirstAt(members + [id], id, |members|);
    assert (members + [id])[..|members|] == members;
  }

  /** A room: its name, fixed at construction, and its members in join order. */
  class Room {
    const roomName: string
    var members: seq<int>

    constructor(name: string)
      ensures roomName == name && members == []
    {
      roomName := name;
      members := [];
    }

    /** `Room::join`: `push_back`, with no check for a member already present. */
    method Join(client: Client)
      modifies this
      ensures members == old(members) + [client.id]
    {
      members := members + [client.id];
    }

    /** `Room::leave`: erase the first member whose id is the client's, and
        report whether there was one. */
    method Leave(client: Client) returns (found: bool)
      modifies this
      ensures found == (client.id in old(members))
      ensures members == RemoveFirst(old(members), client.id)
    {
      var i := 0;
      while i < |members|
        invariant 0 <= i <= |members|
        invariant members == old(members)
        invariant forall j :: 0 <= j < i ==> members[j] != client.id
      {
        if members[i] == client.id {
          RemoveFirstAt(members, client.id, i);
          members := members[..i] + members[i + 1..];
          return true;
        }
        i := i + 1;
      }
      return false;
    }
  }

  /** The messages a room broadcast sends, one per member in member order,
      each addressed to that member with the same truncated text. */
  function BroadcastMsgs(members: seq<int>, text: string): (out: seq<Outbound>)
    ensures |out| == |members|
    ensures forall i :: 0 <= i < |members| ==> out[i] == MessageTo(members[i], text)
  {
    if members == [] then [] else [MessageTo(members[0], text)] + BroadcastMsgs(members[1..], text)
  }

  /** Every message of a broadcast carries its text, truncated. */
  lemma BroadcastTexts(members: seq<int>, text: string)
    ensures forall o :: o in BroadcastMsgs(members, text) ==> o.text == Payload(text)
  {
    var out := BroadcastMsgs(members, text);
    forall o | o in out
      ensures o.text == Payload(text)
    {
      var i :| 0 <= i < |out| && out[i] == o;
    }
  }

  /** How often a message occurs in a broadcast: as often as its recipient
      is a member, when it carries the broadcast's text. */
  lemma {:induction false} BroadcastCount(members: seq<int>, text: string, m: Outbound)
    ensures multiset(BroadcastMsgs(members, text))[m]
            == if m.text == Payload(text) then multiset(members)[m.msgType] else 0
  {
    if members != [] {
      var h, t := members[0], members[1..];
      BroadcastCount(t, text, m);
      assert members == [h] + t;
      assert multiset(members) == multiset{h} + multiset(t);
      var first := MessageTo(h, text);
      assert BroadcastMsgs(members, text) == [first] + BroadcastMsgs(t, text);
      assert multiset(BroadcastMsgs(members, text)) == multiset{first} + multiset(BroadcastMsgs(t, text));
      assert (m == first) == (m.text == Payload(text) && m.msgType == h);
    }
  }

  /** A broadcast to the same members in another order sends the same messages. */
  lemma BroadcastReordered(members: seq<int>, order: seq<int>, text: string)
    requires multiset(order) == multiset(members)
    ensures multiset(BroadcastMsgs(order, text)) == multiset(BroadcastMsgs(members, text))
  {
    forall m: Outbound
      ensures multiset(BroadcastMsgs(order, text))[m] == multiset(BroadcastMsgs(members, text))[m]
    {
      BroadcastCount(order, text, m);
      BroadcastCount(members, text, m);
    }
  }

  /** Which branch of a dispatch step ran. `Left` carries what `leave`
      returned; `BadTarget` is a `dm` whose target `stoi` rejects, where `stoi`
      throws and the process terminates. */
  datatype Outcome = Joined | Left(found: bool) | Said | Messaged | BadTarget | Pulsed | Helped | Ignored

  // ---- the registry as a value ----

  /** The router's two maps: the clients by id, and each room's member list
      by room name. */
  datatype Reg = Reg(clients: map<int, Client>, rooms: map<string, seq<int>>)

  /** Every registered client was made by `CreateOrFindClient` for its key. */
  predicate ClientsNamed(clients: map<int, Client>) {
    forall id :: id in clients ==> clients[id] == NewClient(id)
  }

  const Empty: Reg := Reg(map[], map[])

  /** `CreateOrFindClient(id)` on the maps: a known id leaves them as they are;
      an unknown id gets exactly one new entry, `Client(to_string(id), id)`. */
  function AddClient(r: Reg, id: int): (r': Reg)
    ensures r'.rooms == r.rooms && id in r'.clients
    ensures id in r.clients ==> r' == r
    ensures id !in r.clients ==>
              r'.clients.Keys == r.clients.Keys + {id} && r'.clients[id] == NewClient(id)
    ensures forall k :: k in r.clients ==> k in r'.clients && r'.clients[k] == r.clients[k]
    ensures ClientsNamed(r.clients) ==> ClientsNamed(r'.clients)
  {
    if id in r.clients then r else r.(clients := r.clients[id := NewClient(id)])
  }

  /** `CreateOrFindRoom(name)` on the maps: a known name leaves them as they
      are; an unknown name gets exactly one new, empty room. */
  function AddRoom(r: Reg, name: string): (r': Reg)
    ensures r'.clients == r.clients && name in r'.rooms
    ensures name in r.rooms ==> r' == r
    ensures name !in r.rooms ==>
              r'.rooms.Keys == r.rooms.Keys + {name} && r'.rooms[name] == []
    ensures forall k :: k in r.rooms ==> k in r'.rooms && r'.rooms[k] == r.rooms[k]
  {
    if name in r.rooms then r else r.(rooms := r.rooms[name := []])
  }

  /** Registering a second client the maps did not hold adds exactly its
      entry to the first one's registration. */
  lemma AddUnseenClient(r: Reg, first: int, id: int)
    requires id !in r.clients
    ensures AddClient(AddClient(r, first), id) == Reg(AddClient(r, first).clients[id := NewClient(id)], r.rooms)
  {
  }

  /** Finding or creating twice is finding or creating once. */
  lemma AddClientIdempotent(r: Reg, id: int)
    ensures AddClient(AddClient(r, id), id) == AddClient(r, id)
  {
  }

  lemma AddRoomIdempotent(r: Reg, name: string)
    ensures AddRoom(AddRoom(r, name), name) == AddRoom(r, name)
  {
  }

  /** The members of room `name` once it has been found or created. */
  function MembersOf(r: Reg, name: string): (m: seq<int>)
    ensures m == if name in r.rooms then r.rooms[name] else []
  {
    AddRoom(r, name).rooms[name]
  }

  /** `CreateOrFindRoom(name)->join(client)` for the client with id `id`. */
  function JoinRoom(r: Reg, name: string, id: int): (r': Reg)
    ensures r'.clients == r.clients
    ensures r'.rooms.Keys == r.rooms.Keys + {name}
    ensures r'.rooms[name] == MembersOf(r, name) + [id]
    ensures forall k :: k in r.rooms && k != name ==> r'.rooms[k] == r.rooms[k]
  {
    var a := AddRoom(r, name);
    a.(rooms := a.rooms[name := a.rooms[name] + [id]])
  }

  /** `CreateOrFindRoom(name)->leave(client)` for the client with id `id`. */
  function LeaveRoom(r: Reg, name: string, id: int): (r': Reg)
    ensures r'.clients == r.clients
    ensures r'.rooms.Keys == r.rooms.Keys + {name}
    ensures r'.rooms[name] == RemoveFirst(MembersOf(r, name), id)
    ensures forall k :: k in r.rooms && k != name ==> r'.rooms[k] == r.rooms[k]
  {
    var a := AddRoom(r, name);
    a.(rooms := a.rooms[name := RemoveFirst(a.rooms[name], id)])
  }

  /** Joining a room one was not in and leaving it again changes only that
      the room now exists. */
  lemma JoinLeaveRoom(r: Reg, name: string, id: int)
    requires id !in MembersOf(r, name)
    ensures LeaveRoom(JoinRoom(r, name, id), name, id) == AddRoom(r, name)
  {
    var a := AddRoom(r, name);
    var j := JoinRoom(r, name, id);
    assert j == a.(rooms := a.rooms[name := a.rooms[name] + [id]]);
    JoinThenLeave(a.rooms[name], id);
    assert AddRoom(j, name) == j;
    assert LeaveRoom(j, name, id) == j.(rooms := j.rooms[name := a.rooms[name]]);
    assert j.rooms[name := a.rooms[name]] == a.rooms;
  }

  // ---- the registry as the router holds it ----

  /** The router's `clients` and `rooms` maps. */
  class Registry {
    var clients: map<int, Client>
    var rooms: map<string, Room>

    /** Every client was made for its key, and every room is named by its key
        (so distinct names hold distinct rooms). */
    predicate Valid()
      reads this
    {
      ClientsNamed(clients) && forall k :: k in rooms ==> rooms[k].roomName == k
    }

    /** The maps as values: each room by its member list. */
    function View(): Reg
      reads this, rooms.Values
    {
      Reg(clients, map k | k in rooms :: rooms[k].members)
    }

    /** Every room held now was held before, under the same name, or is new. */
    twostate predicate Grown()
      reads this
    {
      forall k :: k in rooms ==> (k in old(rooms) && rooms[k] == old(rooms)[k]) || fresh(rooms[k])
    }

    constructor()
      ensures Valid() && View() == Empty && rooms == map[]
    {
      clients := map[];
      rooms := map[];
    }

    /** `Router::CreateOrFindClient`. */
    method CreateOrFindClient(id: int) returns (c: Client)
      requires Valid()
      modifies this
      ensures Valid() && View() == AddClient(old(View()), id)
      ensures id in clients && c == clients[id] && c == NewClient(id)
      ensures rooms == old(rooms)
    {
      if id in clients {
        return clients[id];
      }
      c := Client(ToString(id), id);
      clients := clients[id := c];
    }

    /** `Router::CreateOrFindRoom`. */
    method CreateOrFindRoom(name: string) returns (room: Room)
      requires Valid()
      modifies this
      ensures Valid() && View() == AddRoom(old(View()), name)
      ensures name in rooms && room == rooms[name] && room.roomName == name
      ensures name !in old(rooms) ==> fresh(room)
      ensures rooms.Keys == old(rooms).Keys + {name}
      ensures forall k :: k in old(rooms) ==> rooms[k] == old(rooms)[k]
      ensures clients == old(clients)
      ensures Grown()
    {
      if name in rooms {
        return rooms[name];
      }
      room := new Room(name);
      rooms := rooms[name := room];
    }

    /** After a change to the members of room `name` alone, the view is the
        old view with that room's entry replaced. */
    twostate lemma OneRoomChanged(name: string)
      requires old(Valid()) && name in old(rooms)
      requires rooms == old(rooms) && clients == old(clients)
      requires forall k :: k in rooms && k != name ==> unchanged(rooms[k])
      ensures View() == old(View()).(rooms := old(View()).rooms[name := rooms[name].members])
    {
      ghost var before := old(View());
      ghost var after := View();
      forall k | k in after.rooms
        ensures after.rooms[k] == before.rooms[name := rooms[name].members][k]
      {
      }
      assert after.rooms == before.rooms[name := rooms[name].members];
    }

    /** `CreateOrFindRoom(name)->join(client)`. */
    method Join(name: string, client: Client)
      requires Valid()
      modifies this, rooms.Values
      ensures Valid() && View() == JoinRoom(old(View()), name, client.id)
      ensures Grown()
    {
      var room := CreateOrFindRoom(name);
      label L:
      room.Join(client);
      OneRoomChanged@L(name);
    }

    /** `CreateOrFindRoom(name)->leave(client)`, and what `leave` returned. */
    method Leave(name: string, client: Client) returns (found: bool)
      requires Valid()
      modifies this, rooms.Values
      ensures Valid() && View() == LeaveRoom(old(View()), name, client.id)
      ensures found == (client.id in MembersOf(old(View()), name))
      ensures Grown()
    {
      var room := CreateOrFindRoom(name);
      ghost var before := View();
      assert room.members == before.rooms[name] == MembersOf(old(View()), name);
      label L:
      found := room.Leave(client);
      OneRoomChanged@L(name);
      assert before.(rooms := before.rooms[name := room.members]) == LeaveRoom(old(View()), name, client.id);
    }
  }
}
