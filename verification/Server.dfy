/** The server object: the handlers of the poll loop, updating the maps, the rooms' arrays, the
    slot table and the database in place, each proved to do what Chat says. A handler returns
    the packets it writes, in order. */
module Servers {
  import opened NameOrder
  import opened RoomValues
  import opened Rooms
  import opened Tables
  import opened Chat

  lemma RefusedAdd(r: RoomValue, f: int)
    ensures AddCode(r, f) < 0 ==> Add(r, f) == r
    ensures AddCode(r, f) >= 0 ==> Add(r, f).id == r.id
  {
  }

  /** The map is the goal but for the keys not yet inserted. */
  ghost predicate AllBut<T>(m: map<string, T>, goal: map<string, T>, rest: set<string>) {
    m.Keys == goal.Keys - rest && forall k :: k in m ==> m[k] == goal[k]
  }

  lemma OneLess<T>(m: map<string, T>, goal: map<string, T>, rest: set<string>, k: string)
    requires AllBut(m, goal, rest) && k in rest && k in goal
    ensures AllBut(m[k := goal[k]], goal, rest - {k})
  {
  }

  lemma NoneLeft<T>(m: map<string, T>, goal: map<string, T>)
    requires AllBut(m, goal, {})
    ensures m == goal
  {
  }

  /** The flush and the broadcast one element at a time. */
  lemma FlushOne(fd: int, mails: seq<Mail>, i: nat)
    requires i < |mails| && mails[i].text != ""
    ensures WriteAll(fd, Chats(Flushed(mails[i..])))
         == [Write(fd, Chat(mails[i]))] + WriteAll(fd, Chats(Flushed(mails[i + 1..])))
  {
    assert mails[i..][0] == mails[i] && mails[i..][1..] == mails[i + 1..];
    var rest := Flushed(mails[i + 1..]);
    assert Flushed(mails[i..]) == [mails[i]] + rest;
    assert ([mails[i]] + rest)[1..] == rest;
    assert ([Chat(mails[i])] + Chats(rest))[1..] == Chats(rest);
  }

  lemma FlushEnds(fd: int, mails: seq<Mail>, i: nat)
    requires i <= |mails| && (i == |mails| || mails[i].text == "")
    ensures WriteAll(fd, Chats(Flushed(mails[i..]))) == []
  {
    assert i < |mails| ==> mails[i..][0] == mails[i];
  }

  lemma BroadcastOne(members: seq<int>, r: Reply, i: nat)
    requires i < |members|
    ensures Broadcast(members[i..], r) == [Write(members[i], r)] + Broadcast(members[i + 1..], r)
  {
    assert members[i..][1..] == members[i + 1..];
  }

  lemma BroadcastEnds(members: seq<int>, r: Reply, i: nat)
    requires i == |members|
    ensures Broadcast(members[i..], r) == []
  {
  }

  ghost function WrittenAt(s: State, es: seq<Event>, i: nat): seq<Write>
    requires i < |es|
  {
    Step(After(s, es[..i]), es[i]).out
  }

  lemma OneMore(s: State, es: seq<Event>, i: nat)
    requires i < |es|
    ensures After(s, es[..i + 1]) == Step(After(s, es[..i]), es[i]).s
  {
    assert es[..i + 1][..i] == es[..i];
  }

  lemma {:induction false} LegalPrefix(s: State, es: seq<Event>, i: nat)
    requires Legal(s, es) && i < |es|
    ensures Enabled(After(s, es[..i]), es[i])
  {
    hide Step, Enabled;
    var front := es[..|es| - 1];
    if i < |front| {
      LegalPrefix(s, front, i);
      assert front[..i] == es[..i] && front[i] == es[i];
    }
  }

  /** An accept with a free slot. */
  lemma AcceptStep(s: State, fd: int, i: nat)
    requires 1 <= i < |s.slots| && FreeSlot(s.slots, 1) == i
    ensures Step(s, Accept(fd)) == Effect(s.(slots := s.slots[i := fd], maxi := if i > s.maxi then i else s.maxi), [])
  {
  }

  class Server {
    var mapuser: map<string, User>
    var roomMap: map<string, Record>
    var client_fd: array<int>
    var maxi: int
    var db: Database

    /** The values the rooms and the slot table hold, and every buffer a room was given. */
    ghost var rooms: map<string, RoomValue>
    ghost var slots: seq<int>
    ghost var buffers: set<array<int>>

    /** Each room is filed under its own id and holds its value; no two rooms share a member
        buffer, and none uses the slot table as one. */
    ghost predicate Valid()
      reads this, client_fd, buffers
    {
      && client_fd.Length == POLL_SIZE && client_fd[..] == slots && client_fd !in buffers
      && roomMap.Keys == rooms.Keys
      && (forall k :: k in roomMap ==>
            && roomMap[k].roomID == k && (roomMap[k].fdRoomMembers == null || roomMap[k].fdRoomMembers in buffers)
            && Consistent(roomMap[k]) && ValueOf(roomMap[k]) == rooms[k])
      && (forall j, k :: j in roomMap && k in roomMap && j != k ==>
            roomMap[j].fdRoomMembers != roomMap[k].fdRoomMembers || roomMap[j].fdRoomMembers == null)
    }

    ghost function Abs(): State
      reads this
    {
      State(mapuser, rooms, slots, maxi, db)
    }

    /** What the object holds when it is in a state: the two maps, the slot table, and for each room
        its fields and its members at the front of a buffer that is no other room's. */
    lemma InMemory()
      requires Valid()
      ensures var s := Abs();
        && mapuser == s.users && db == s.db && client_fd[..] == s.slots && maxi == s.maxi
        && roomMap.Keys == s.rooms.Keys
        && (forall k :: k in roomMap ==>
              var r, v := roomMap[k], s.rooms[k];
              && r.roomID == v.id == k && r.capacity == v.capacity && r.availableUsers == |v.members| <= r.capacity
              && (if r.fdRoomMembers == null then r.capacity == 0
                  else r.capacity <= r.fdRoomMembers.Length && r.fdRoomMembers[..r.availableUsers] == v.members))
        && (forall j, k :: j in roomMap && k in roomMap && j != k && roomMap[j].fdRoomMembers != null ==>
              roomMap[j].fdRoomMembers != roomMap[k].fdRoomMembers && roomMap[j].fdRoomMembers != client_fd)
    {
      forall k | k in roomMap ensures ValueOf(roomMap[k]) == rooms[k] { }
    }

    /** The object is in the state, and the writes are those, that an effect says. */
    ghost predicate Did(out: seq<Write>, e: Effect)
      reads this, client_fd, buffers
    {
      && Valid() && out == e.out
      && mapuser == e.s.users && rooms == e.s.rooms && slots == e.s.slots && maxi == e.s.maxi && db == e.s.db
    }

    /** Recovery at startup: both maps are filled from the tables, every user offline and every
        room empty, and only the listening socket has a slot. */
    constructor Init(tables: Database, listenfd: int)
      ensures Valid() && fresh(client_fd) && Abs() == Boot(tables, listenfd)
    {
      client_fd := new int[POLL_SIZE](i => if i == 0 then listenfd else -1);
      slots := [listenfd] + seq(POLL_SIZE - 1, _ => -1);
      maxi, db := 0, tables;
      mapuser, roomMap, rooms, buffers := map[], map[], map[], {};
      new;
      MapUser();
      MapRoom();
    }

    /** std::map's insert: under a present key nothing changes. */
    method Insert(u: string, x: User)
      requires Valid()
      modifies this`mapuser
      ensures Valid() && mapuser == if u in old(mapuser) then old(mapuser) else old(mapuser)[u := x]
    {
      if u !in mapuser {
        mapuser := mapuser[u := x];
      }
    }

    method MapUser()
      requires Valid() && mapuser == map[]
      modifies this`mapuser
      ensures Valid() && mapuser == Chat.MapUser(db)
    {
      ghost var goal := Chat.MapUser(db);
      var rest := db.users.Keys;
      while rest != {}
        invariant Valid() && rest <= db.users.Keys
        invariant AllBut(mapuser, goal, rest)
        decreases |rest|
      {
        var u :| u in rest;
        OneLess(mapuser, goal, rest, u);
        Insert(u, UserOf(db.users[u]));
        rest := rest - {u};
      }
      NoneLeft(mapuser, goal);
    }

    /** Files a room that brings a buffer of its own. */
    method File(x: string, room: Room)
      requires Valid() && room.Valid() && room.roomID == x
      requires room.fdRoomMembers == null || room.fdRoomMembers !in buffers + {client_fd}
      modifies this`roomMap, this`rooms, this`buffers
      ensures Valid() && rooms == old(rooms)[x := room.Value()]
      ensures buffers == old(buffers) + if room.fdRoomMembers == null then {} else {room.fdRoomMembers}
    {
      if room.fdRoomMembers != null {
        buffers := buffers + {room.fdRoomMembers};
      }
      roomMap := roomMap[x := room.Fields()];
      rooms := rooms[x := room.Value()];
    }

    /** A row of the rooms table becomes an empty room. A negative capacity is refused by
        `setCapacity`, which leaves the default of none. */
    method RecoverRoom(k: string, capacity: int)
      requires Valid()
      modifies this`roomMap, this`rooms, this`buffers
      ensures Valid() && rooms == old(rooms)[k := RoomValue(k, Usable(capacity), [])] && fresh(buffers - old(buffers))
    {
      var room := new Room.Empty();
      room.SetRoomID(k);
      room.SetCapacity(capacity);
      assert room.Value() == RoomValue(k, Usable(capacity), []);
      File(k, room);
    }

    method MapRoom()
      requires Valid() && rooms == map[]
      modifies this`roomMap, this`rooms, this`buffers
      ensures Valid() && rooms == Chat.MapRoom(db) && fresh(buffers - old(buffers))
    {
      ghost var goal := Chat.MapRoom(db);
      var rest := db.rooms.Keys;
      while rest != {}
        invariant Valid() && rest <= db.rooms.Keys && fresh(buffers - old(buffers))
        invariant AllBut(rooms, goal, rest)
        decreases |rest|
      {
        var k :| k in rest;
        OneLess(rooms, goal, rest, k);
        RecoverRoom(k, db.rooms[k]);
        rest := rest - {k};
      }
      NoneLeft(rooms, goal);
    }

    /** The tables after a statement. */
    method Store(tables: Database)
      requires Valid()
      modifies this`db
      ensures Valid() && db == tables
    {
      db := tables;
    }

    /** std::map's erase. */
    method Erase(u: string)
      requires Valid()
      modifies this`mapuser
      ensures Valid() && mapuser == old(mapuser) - {u}
    {
      mapuser := mapuser - {u};
    }

    // Scans of the user map.

    /** The scan that stops at its first match: nobody bound to the descriptor has a name before
        that of the user found. */
    method FindUserByFd(fd: int) returns (found: Option<string>)
      ensures found.Some? <==> exists u :: u in mapuser && mapuser[u].fd == fd
      ensures found.Some? ==> FirstOn(mapuser, fd, found.value)
      ensures found.Some? <==> Bound(mapuser, fd)
      ensures found.Some? ==> found.value == First(mapuser, fd)
    {
      var rest := mapuser.Keys;
      while rest != {}
        invariant rest <= mapuser.Keys
        invariant forall v :: v in mapuser && v !in rest ==> mapuser[v].fd != fd
        decreases |rest|
      {
        LeastExists(rest);
        var u :| IsLeast(u, rest);
        if mapuser[u].fd == fd {
          assert IsLeast(u, Holders(mapuser, fd));
          ExtremesUnique(u, First(mapuser, fd), Holders(mapuser, fd));
          FirstIs(mapuser, fd, u);
          return Some(u);
        }
        rest := rest - {u};
      }
      assert Holders(mapuser, fd) == {};
      return None;
    }

    /** OneToOneChat's scan, which does not stop at a match: nobody bound to the descriptor has a
        name after that of the user it ends on. */
    method LastUserByFd(fd: int) returns (found: Option<string>)
      ensures found.Some? <==> exists u :: u in mapuser && mapuser[u].fd == fd
      ensures found.Some? ==> LastOn(mapuser, fd, found.value)
      ensures found.Some? <==> Bound(mapuser, fd)
      ensures found.Some? ==> found.value == Last(mapuser, fd)
    {
      var rest := mapuser.Keys;
      found := None;
      while rest != {}
        invariant rest <= mapuser.Keys
        invariant forall v, w :: v in mapuser && v !in rest && w in rest ==> Less(v, w)
        invariant found.None? ==> forall v :: v in mapuser && v !in rest ==> mapuser[v].fd != fd
        invariant found.Some? ==> IsGreatest(found.value, Holders(mapuser, fd) - rest)
        decreases |rest|
      {
        LeastExists(rest);
        var u :| IsLeast(u, rest);
        ghost var seen := Holders(mapuser, fd) - rest;
        rest := rest - {u};
        if mapuser[u].fd == fd {
          found := Some(u);
          assert Holders(mapuser, fd) - rest == seen + {u};
        } else {
          assert Holders(mapuser, fd) - rest == seen;
        }
      }
      assert Holders(mapuser, fd) - rest == Holders(mapuser, fd);
      if found.Some? {
        ExtremesUnique(found.value, Last(mapuser, fd), Holders(mapuser, fd));
        LastIs(mapuser, fd, found.value);
      }
    }

    method CheckAdmin(fd: int) returns (admin: bool)
      ensures admin <==> exists u :: FirstOn(mapuser, fd, u) && u != "" && mapuser[u].role == 1
      ensures admin <==> IsAdmin(mapuser, fd)
    {
      var u := FindUserByFd(fd);
      if v :| FirstOn(mapuser, fd, v) { FirstIs(mapuser, fd, v); }
      admin := u.Some? && u.value != "" && mapuser[u.value].role == ADMIN;
    }

    method NotificationOffline(fd: int, online: bool) returns (out: seq<Write>)
      requires Bound(mapuser, fd)
      ensures out == NoticesFrom(mapuser, fd, online)
    {
      var found := FindUserByFd(fd);
      var about := found.value;
      out := [];
      if about != "" {
        var rest := mapuser.Keys;
        while rest != {}
          invariant rest <= mapuser.Keys
          invariant out + Notices(mapuser, rest, about, online) == Notices(mapuser, mapuser.Keys, about, online)
          decreases |rest|
        {
          LeastExists(rest);
          var u :| IsLeast(u, rest);
          ExtremesUnique(u, Least(rest), rest);
          if mapuser[u].fd > 0 && mapuser[u].state.kind == WITH_USER && mapuser[u].state.name == about {
            out := out + [Write(mapuser[u].fd, Party(online))];
          }
          rest := rest - {u};
        }
      }
    }

    // Rooms: copy shallowly, change the copy, write it back.

    /** Valid but for the value of one room, whose buffer may have changed under it. */
    ghost predicate ValidExcept(x: string)
      reads this, client_fd, buffers
    {
      && client_fd.Length == POLL_SIZE && client_fd[..] == slots && client_fd !in buffers
      && roomMap.Keys == rooms.Keys
      && (forall k :: k in roomMap ==> roomMap[k].fdRoomMembers == null || roomMap[k].fdRoomMembers in buffers)
      && (forall k :: k in roomMap && k != x ==>
            roomMap[k].roomID == k && Consistent(roomMap[k]) && ValueOf(roomMap[k]) == rooms[k])
      && (forall j, k :: j in roomMap && k in roomMap && j != k ==>
            roomMap[j].fdRoomMembers != roomMap[k].fdRoomMembers || roomMap[j].fdRoomMembers == null)
    }

    /** Writing back a changed copy of one room changes that room's value and no other's, and no
        two rooms come to share a buffer. */
    method PutBack(x: string, copy: Room)
      requires ValidExcept(x) && x in roomMap
      requires copy.Valid() && copy.roomID == x && copy.fdRoomMembers == roomMap[x].fdRoomMembers
      modifies this`roomMap, this`rooms
      ensures Valid() && rooms == old(rooms)[x := copy.Value()]
    {
      roomMap, rooms := roomMap[x := copy.Fields()], rooms[x := copy.Value()];
    }

    /** LeaveRoom erases the entry before it inserts the copy. */
    method EraseAndPutBack(x: string, copy: Room)
      requires ValidExcept(x) && x in roomMap
      requires copy.Valid() && copy.roomID == x && copy.fdRoomMembers == roomMap[x].fdRoomMembers
      modifies this`roomMap, this`rooms
      ensures Valid() && rooms == old(rooms)[x := copy.Value()]
    {
      assert (roomMap - {x})[copy.roomID := copy.Fields()] == roomMap[x := copy.Fields()];
      roomMap, rooms := (roomMap - {x})[copy.roomID := copy.Fields()], rooms[x := copy.Value()];
    }

    method AddToRoom(fd: int, room: string) returns (code: int)
      requires Valid() && room in roomMap
      modifies this`roomMap, this`rooms, buffers
      ensures Valid()
      ensures code == AddCode(old(rooms)[room], fd)
      ensures rooms == if code < 0 then old(rooms) else old(rooms)[room := Add(old(rooms)[room], fd)]
    {
      RefusedAdd(rooms[room], fd);
      hide Add, AddCode;
      var copy := new Room.Shallow(roomMap[room]);
      code := copy.Add(fd);
      if code >= 0 {
        PutBack(room, copy);
      } else {
        assert copy.Fields() == roomMap[room] && copy.Value() == rooms[room];
      }
    }

    /** The entry of the user a descriptor is bound to is erased and inserted again with another
        state. */
    method Move(fd: int, st: Status) returns (u: string)
      requires Valid() && Bound(mapuser, fd)
      modifies this`mapuser
      ensures Valid() && u == First(old(mapuser), fd) && mapuser == PutState(old(mapuser), u, st)
    {
      var found := FindUserByFd(fd);
      u := found.value;
      var userdis := mapuser[u];
      Erase(u);
      Insert(u, userdis.(state := st));
    }

    method EnterRoom(fd: int, room: string)
      requires Valid() && Bound(mapuser, fd)
      modifies this`mapuser, this`db
      ensures Valid()
      ensures var u, st := First(old(mapuser), fd), Status(IN_ROOM, room);
              mapuser == PutState(old(mapuser), u, st) && db == SetState(ClearState(old(db), u), u, st)
    {
      var u := Move(fd, Status(IN_ROOM, room));
      Store(ClearState(db, u));
      Store(SetState(db, u, mapuser[u].state));
    }

    method JoinRoom(fd: int, room: string) returns (out: seq<Write>)
      requires Valid() && Bound(mapuser, fd)
      modifies this`mapuser, this`roomMap, this`rooms, this`db, buffers
      ensures Did(out, DoJoin(old(Abs()), fd, room))
    {
      var code := -2;
      if room in roomMap {
        code := AddToRoom(fd, room);
      }
      if code < 0 {
        out := [Write(fd, JoinFail)];
      } else {
        EnterRoom(fd, room);
        out := [Write(fd, JoinOk)];
      }
    }

    /** The member buffer is shifted under the shared copy, which then replaces the original. */
    method TakeOut(fd: int, room: string) returns (temp: Room)
      requires Valid() && room in roomMap
      modifies this`roomMap, this`rooms, buffers
      ensures Valid()
      ensures rooms == old(rooms)[room := Remove(old(rooms)[room], fd)]
      ensures temp.Valid() && temp.Value() == rooms[room]
    {
      hide Remove;
      temp := new Room.Shallow(roomMap[room]);
      temp.RemoveUser(fd);
      EraseAndPutBack(room, temp);
    }

    /** Writes to a copy of the member list. */
    method Tell(room: Room, r: Reply) returns (out: seq<Write>)
      requires room.Valid()
      ensures out == Broadcast(room.Members(), r)
    {
      hide Broadcast;
      var list := room.ListClients();
      ghost var members := room.Members();
      var i := 0;
      out := [];
      while i < list.Length
        invariant 0 <= i <= list.Length && list[..] == members
        invariant out + Broadcast(members[i..], r) == Broadcast(members, r)
      {
        BroadcastOne(members, r, i);
        assert members[i] == list[i];
        out := out + [Write(list[i], r)];
        i := i + 1;
      }
      BroadcastEnds(members, r, i);
    }

    method LeaveRoom(fd: int, room: string, who: string) returns (out: seq<Write>)
      requires Valid()
      modifies this`roomMap, this`rooms, buffers
      ensures Did(out, Chat.LeaveRoom(old(Abs()), fd, room, who))
    {
      out := [];
      if room in roomMap {
        var temp := TakeOut(fd, room);
        out := Tell(temp, Left(who));
      }
    }

    method RoomChat(fd: int, u: string, text: string, time: int) returns (out: seq<Write>)
      requires Valid() && u in mapuser && mapuser[u].state.kind == IN_ROOM
      ensures var room := mapuser[u].state.name;
              out == if room in rooms then Broadcast(rooms[room].members, Chat(Mail(u, text, time))) else []
    {
      var room := new Room.Empty();
      if mapuser[u].state.name in roomMap {
        room := new Room.Shallow(roomMap[mapuser[u].state.name]);
      }
      out := Tell(room, Chat(Mail(u, text, time)));
    }

    method MakeRoom(room: string, capacity: int)
      requires Valid() && capacity >= 0
      modifies this`roomMap, this`rooms, this`buffers
      ensures Valid() && rooms == old(rooms)[room := RoomValue(room, capacity, [])] && fresh(buffers - old(buffers))
    {
      var newRoom := new Room(room, capacity);
      File(room, newRoom);
    }

    method AddRoom(fd: int, room: string, capacity: int) returns (out: seq<Write>)
      requires Valid()
      modifies this`roomMap, this`rooms, this`buffers, this`db
      ensures Did(out, DoCreateRoom(old(Abs()), fd, room, capacity)) && fresh(buffers - old(buffers))
    {
      var admin := CheckAdmin(fd);
      if !admin || room in roomMap || capacity < 0 || room == "" {
        return [Write(fd, CreateFail)];
      }
      ghost var s := Abs();
      ghost var t := s.(rooms := s.rooms[room := RoomValue(room, capacity, [])],
                        db := InsertRoom(s.db, room, capacity));
      assert DoCreateRoom(s, fd, room, capacity) == Answer(t, fd, CreateOk);
      hide DoCreateRoom, IsAdmin, Valid;
      MakeRoom(room, capacity);
      Store(InsertRoom(db, room, capacity));
      assert Abs() == t;
      return [Write(fd, CreateOk)];
    }

    /** The copy moves to a buffer of its own before it replaces the original. */
    method Resize(room: string, capacity: int)
      requires Valid() && room in roomMap
      requires capacity >= |rooms[room].members|
      modifies this`roomMap, this`rooms, this`buffers
      ensures Valid() && rooms == old(rooms)[room := SetCapacity(old(rooms)[room].(id := room), capacity)]
      ensures fresh(buffers - old(buffers))
    {
      var copy := new Room.Shallow(roomMap[room]);
      copy.SetRoomID(room);
      copy.SetCapacity(capacity);
      File(room, copy);
    }

    method ModifyRoom(fd: int, room: string, capacity: int) returns (out: seq<Write>)
      requires Valid() && Bound(mapuser, fd)
      modifies this`roomMap, this`rooms, this`buffers, this`db
      ensures Did(out, DoModifyRoom(old(Abs()), fd, room, capacity)) && fresh(buffers - old(buffers))
    {
      var usr := FindUserByFd(fd);
      if mapuser[usr.value].role != ADMIN || room !in roomMap || capacity <= 0 {
        return [Write(fd, ModifyFail)];
      }
      assert rooms[room].members == [] <==> roomMap[room].availableUsers == 0;
      if roomMap[room].availableUsers != 0 {
        return [Write(fd, ModifyFail)];
      }
      ghost var s := Abs();
      ghost var v := SetCapacity(s.rooms[room].(id := room), capacity);
      ghost var t := s.(rooms := s.rooms[room := v], db := Tables.ModifyRoom(s.db, room, capacity));
      assert DoModifyRoom(s, fd, room, capacity) == Answer(t, fd, ModifyOk);
      hide DoModifyRoom, Valid;
      Resize(room, capacity);
      Store(Tables.ModifyRoom(db, room, capacity));
      assert Abs() == t;
      return [Write(fd, ModifyOk)];
    }

    method Unfile(x: string)
      requires Valid()
      modifies this`roomMap, this`rooms
      ensures Valid() && rooms == old(rooms) - {x}
    {
      roomMap := roomMap - {x};
      rooms := rooms - {x};
    }

    method DeleteRoom(fd: int, room: string) returns (out: seq<Write>)
      requires Valid() && Bound(mapuser, fd)
      modifies this`roomMap, this`rooms, this`db
      ensures Did(out, DoDeleteRoom(old(Abs()), fd, room))
    {
      var usr := FindUserByFd(fd);
      if mapuser[usr.value].role != ADMIN || room !in roomMap {
        return [Write(fd, DeleteFail)];
      }
      assert rooms[room].members == [] <==> roomMap[room].availableUsers == 0;
      if roomMap[room].availableUsers != 0 {
        return [Write(fd, DeleteFail)];
      }
      ghost var s := Abs();
      ghost var t := s.(rooms := s.rooms - {room}, db := Tables.DeleteRoom(s.db, room));
      assert DoDeleteRoom(s, fd, room) == Answer(t, fd, DeleteOk);
      Unfile(room);
      Store(Tables.DeleteRoom(db, room));
      assert Abs() == t;
      return [Write(fd, DeleteOk)];
    }

    // Requests about accounts.

    method AddUser(fd: int, name: string, password: string, role: int) returns (out: seq<Write>)
      requires Valid()
      modifies this`mapuser, this`db
      ensures Did(out, DoCreateUser(old(Abs()), fd, name, password, role))
    {
      var admin := CheckAdmin(fd);
      if !admin || name in mapuser || name == "" || password == "" {
        return [Write(fd, CreateFail)];
      }
      var granted := role;
      if granted != 1 { granted := 2; } else { granted := 1; }
      Store(InsertUser(db, name, password, granted));
      Insert(name, User(password, granted, IDLE_STATE, -1));
      return [Write(fd, CreateOk)];
    }

    method DeleteUser(fd: int, name: string) returns (out: seq<Write>)
      requires Valid()
      modifies this`mapuser, this`db
      ensures Did(out, DoDeleteUser(old(Abs()), fd, name))
    {
      var admin := CheckAdmin(fd);
      if !admin || name !in mapuser || mapuser[name].fd > 0 || HaveOfflineMessage(db, name) {
        return [Write(fd, DeleteFail)];
      }
      Store(Tables.DeleteUser(db, name));
      Erase(name);
      return [Write(fd, DeleteOk)];
    }

    method HandleModifyUser(fd: int, name: string, password: string, role: int) returns (out: seq<Write>)
      requires Valid()
      modifies this`mapuser, this`db
      ensures Did(out, DoModifyUser(old(Abs()), fd, name, password, role))
    {
      var admin := CheckAdmin(fd);
      if !admin || name !in mapuser || password == "" || mapuser[name].fd > 0 {
        return [Write(fd, ModifyFail)];
      }
      var modified := mapuser[name].(password := password, role := if role != 1 then 2 else 1);
      Erase(name);
      Insert(name, modified);
      assert mapuser == old(mapuser)[name := modified];
      Store(Tables.ModifyUser(db, name, modified.password, modified.role));
      return [Write(fd, ModifyOk)];
    }

    // Talking.

    method WithFunction(fd: int, name: string) returns (out: seq<Write>)
      requires Valid() && Bound(mapuser, fd)
      modifies this`mapuser, this`db
      ensures Did(out, DoWith(old(Abs()), fd, name))
    {
      if name !in mapuser || mapuser[name].fd == fd {
        return [Write(fd, WithFail)];
      }
      var online := !(mapuser[name].fd < 0);
      var u := Move(fd, Status(WITH_USER, name));
      Store(SetState(db, u, mapuser[u].state));
      return [Write(fd, WithOk(online))];
    }

    method OneToOneChat(fd: int, text: string, time: int) returns (out: seq<Write>)
      requires Valid() && Bound(mapuser, fd)
      modifies this`db
      ensures Did(out, DoSend(old(Abs()), fd, text, time))
    {
      var found := LastUserByFd(fd);
      var u := found.value;
      var st := mapuser[u].state;
      out := [];
      if st.kind == WITH_USER {
        if st.name in mapuser {
          if mapuser[st.name].fd < 0 {
            Store(SaveMessage(db, st.name, Mail(u, text, time)));
          } else {
            out := [Write(mapuser[st.name].fd, Chat(Mail(u, text, time)))];
          }
        }
      } else if st.kind == IN_ROOM {
        out := RoomChat(fd, u, text, time);
      }
    }

    method LeaveChatUser(fd: int) returns (out: seq<Write>)
      requires Valid() && Bound(mapuser, fd)
      modifies this`mapuser, this`roomMap, this`rooms, this`db, buffers
      ensures Did(out, DoTerminate(old(Abs()), fd))
    {
      var found := FindUserByFd(fd);
      var u := found.value;
      var st := mapuser[u].state;
      if st.name == "" {
        return [Write(fd, TerminateFail)];
      }
      out := [];
      if st.kind == IN_ROOM {
        out := LeaveRoom(fd, st.name, u);
      }
      Store(ClearState(db, u));
      var moved := Move(fd, IDLE_STATE);
      out := out + [Write(fd, Terminated)];
    }

    method Retire(u: string)
      requires Valid() && u in mapuser
      modifies this`mapuser, this`db
      ensures Valid() && db == ClearState(old(db), u)
      ensures mapuser == old(mapuser)[u := old(mapuser)[u].(state := IDLE_STATE, fd := OFFLINE)]
    {
      var userdis := mapuser[u];
      Store(ClearState(db, u));
      Erase(u);
      Insert(u, userdis.(state := IDLE_STATE, fd := -1));
    }

    method ChangeStateUserOff(fd: int) returns (out: seq<Write>)
      requires Valid() && Bound(mapuser, fd)
      modifies this`mapuser, this`roomMap, this`rooms, this`db, buffers
      ensures Did(out, SwitchOff(old(Abs()), fd))
    {
      var found := FindUserByFd(fd);
      var u := found.value;
      out := [];
      if mapuser[u].state.kind == IN_ROOM {
        out := LeaveRoom(fd, mapuser[u].state.name, u);
      }
      Retire(u);
    }

    // The mail box.

    /** The count, then an array of one more than that filled row by row; its last element
        stays zeroed. */
    method GetMessageOfUser(u: string) returns (messageArr: array?<Mail>)
      ensures messageArr == null <==> StoredFor(db, u) == []
      ensures messageArr != null ==>
        && fresh(messageArr) && messageArr.Length == |StoredFor(db, u)| + 1
        && messageArr[..messageArr.Length - 1] == StoredFor(db, u)
        && messageArr[messageArr.Length - 1].text == ""
    {
      var rows := StoredFor(db, u);
      var numOfMessages := |rows|;
      if numOfMessages == 0 {
        return null;
      }
      messageArr := new Mail[numOfMessages + 1](_ => Mail("", "", 0));
      var i := 0;
      while i < numOfMessages
        invariant 0 <= i <= numOfMessages
        invariant messageArr[..i] == rows[..i]
        invariant messageArr[numOfMessages].text == ""
      {
        messageArr[i] := rows[i];
        i := i + 1;
      }
    }

    /** Writes until a text is empty, which the last element's is at the latest. */
    method WriteUntilEmpty(fd: int, messageArr: array<Mail>) returns (out: seq<Write>)
      requires messageArr.Length > 0 && messageArr[messageArr.Length - 1].text == ""
      ensures out == WriteAll(fd, Chats(Flushed(messageArr[..messageArr.Length - 1])))
    {
      ghost var mails := messageArr[..messageArr.Length - 1];
      var next := 0;
      out := [];
      while |messageArr[next].text| > 0
        invariant 0 <= next <= |mails|
        invariant out + WriteAll(fd, Chats(Flushed(mails[next..]))) == WriteAll(fd, Chats(Flushed(mails)))
        decreases |mails| - next
      {
        FlushOne(fd, mails, next);
        out := out + [Write(fd, Chat(messageArr[next]))];
        next := next + 1;
      }
      FlushEnds(fd, mails, next);
    }

    /** The flush, after which everything stored is deleted. */
    method HandleOfflineMessage(fd: int) returns (out: seq<Write>)
      requires Valid() && Bound(mapuser, fd)
      modifies this`db
      ensures Valid()
      ensures var u := First(mapuser, fd);
              var mails := StoredFor(old(db), u);
              && db == (if mails == [] then old(db) else DeleteMessages(old(db), u))
              && out == WriteAll(fd, Chats(Flushed(mails)))
    {
      var usr := FindUserByFd(fd);
      var messageArr := GetMessageOfUser(usr.value);
      out := [];
      if messageArr != null {
        out := WriteUntilEmpty(fd, messageArr);
        Store(DeleteMessages(db, usr.value));
      }
    }

    method GreetUser(fd: int, hello: Reply) returns (out: seq<Write>)
      requires Valid() && Bound(mapuser, fd)
      modifies this`db
      ensures Did(out, Welcome(old(Abs()), fd, hello))
    {
      var flushed := HandleOfflineMessage(fd);
      var news := NotificationOffline(fd, true);
      out := [Write(fd, hello)] + flushed + news;
    }

    method Return(fd: int, room: string) returns (refused: bool)
      requires Valid() && room in rooms
      modifies this`roomMap, this`rooms, buffers
      ensures Valid() && rooms == old(rooms)[room := Add(old(rooms)[room], fd)]
      ensures refused <==> AddCode(old(rooms)[room], fd) < 0
    {
      var code := AddToRoom(fd, room);
      refused := code < 0;
      assert refused ==> old(rooms)[room := Add(old(rooms)[room], fd)] == old(rooms);
    }

    method Bind(u: string, fd: int)
      requires Valid() && u in mapuser
      modifies this`mapuser
      ensures Valid() && mapuser == old(mapuser)[u := old(mapuser)[u].(fd := fd)]
    {
      mapuser := mapuser[u := mapuser[u].(fd := fd)];
    }

    /** The descriptor is bound, and the user goes back to the room it was in if that room still
        exists and has a place. */
    method Rejoin(fd: int, name: string) returns (refused: bool)
      requires Valid() && name in mapuser
      modifies this`mapuser, this`roomMap, this`rooms, buffers
      ensures Valid() && Abs() == Rejoined(old(Abs()), fd, name)
      ensures refused <==> ReAddRefused(old(Abs()), fd, name)
    {
      var usr := mapuser[name];
      Bind(name, fd);
      if usr.state.kind == IN_ROOM && usr.state.name in roomMap {
        refused := Return(fd, usr.state.name);
      } else {
        refused := false;
      }
    }

    method Login(fd: int, name: string, password: string) returns (out: seq<Write>)
      requires Valid()
      modifies this`mapuser, this`roomMap, this`rooms, this`db, buffers
      ensures Did(out, DoLogin(old(Abs()), fd, name, password))
    {
      if name !in mapuser || mapuser[name].fd > 0 || mapuser[name].password != password {
        return [Write(fd, LoginFail)];
      }
      var usr := mapuser[name];
      var refused := Rejoin(fd, name);
      assert name in Holders(mapuser, fd);
      out := [];
      if !refused {
        out := GreetUser(fd, LoginOk(name, usr.password, usr.role, usr.state.name));
      }
    }

    // The poll loop.

    /** The rest of the switch: requests about accounts and rooms, and listings. */
    method AnalyzeRest(fd: int, request: Request) returns (out: seq<Write>)
      requires Valid() && Bound(mapuser, fd)
      requires !request.Login? && !request.With? && !request.Join? && !request.Send? && !request.Terminate?
      modifies this`mapuser, this`roomMap, this`rooms, this`buffers, this`db
      ensures Did(out, Dispatch(old(Abs()), fd, request)) && fresh(buffers - old(buffers))
    {
      hide DoCreateUser, DoModifyUser, DoDeleteUser, DoCreateRoom, DoModifyRoom, DoDeleteRoom;
      match request
      case CreateUser(name, password, role) => out := AddUser(fd, name, password, role);
      case ModifyUser(name, password, role) => out := HandleModifyUser(fd, name, password, role);
      case DeleteUser(name) => out := DeleteUser(fd, name);
      case CreateRoom(room, capacity) => out := AddRoom(fd, room, capacity);
      case ModifyRoom(room, capacity) => out := ModifyRoom(fd, room, capacity);
      case DeleteRoom(room) => out := DeleteRoom(fd, room);
      case Listing => out := [Write(fd, List)];
      case _ => out := [];
    }

    /** The switch. */
    method HandleRequest(fd: int, request: Request) returns (out: seq<Write>)
      requires Valid() && (Bound(mapuser, fd) || request.Login?)
      modifies this`mapuser, this`roomMap, this`rooms, this`buffers, this`db, buffers
      ensures Did(out, Dispatch(old(Abs()), fd, request)) && fresh(buffers - old(buffers))
    {
      hide DoLogin, DoWith, DoJoin, DoSend, DoTerminate;
      hide DoCreateUser, DoModifyUser, DoDeleteUser, DoCreateRoom, DoModifyRoom, DoDeleteRoom;
      match request
      case Login(name, password) => out := Login(fd, name, password);
      case With(name) => out := WithFunction(fd, name);
      case Join(room) => out := JoinRoom(fd, room);
      case Send(text, time) => out := OneToOneChat(fd, text, time);
      case Terminate => out := LeaveChatUser(fd);
      case _ => out := AnalyzeRest(fd, request);
    }

    /** The gate in front of the switch. */
    method AnalyzePackage(fd: int, request: Request) returns (out: seq<Write>)
      requires Valid()
      modifies this`mapuser, this`roomMap, this`rooms, this`buffers, this`db, buffers
      ensures Did(out, Dispatch(old(Abs()), fd, request)) && fresh(buffers - old(buffers))
    {
      hide DoLogin, DoWith, DoJoin, DoSend, DoTerminate;
      hide DoCreateUser, DoModifyUser, DoDeleteUser, DoCreateRoom, DoModifyRoom, DoDeleteRoom;
      var known := FindUserByFd(fd);
      if known.None? && !request.Login? {
        return [Write(fd, SendFail)];
      }
      out := HandleRequest(fd, request);
    }

    method SetSlot(i: nat, fd: int)
      requires Valid() && i < POLL_SIZE
      modifies this`slots, client_fd
      ensures Valid() && slots == old(slots)[i := fd]
    {
      client_fd[i] := fd;
      slots := slots[i := fd];
    }

    method SetMaxi(i: int)
      requires Valid()
      modifies this`maxi
      ensures Valid() && maxi == i
    {
      maxi := i;
    }

    method FirstFree() returns (i: nat)
      requires Valid() && exists i :: 1 <= i < POLL_SIZE && client_fd[i] < 0
      ensures 1 <= i < POLL_SIZE && FreeSlot(slots, 1) == i
    {
      i := 1;
      while client_fd[i] >= 0
        invariant 1 <= i < POLL_SIZE
        invariant FreeSlot(slots, 1) == FreeSlot(slots, i)
        invariant exists k :: i <= k < POLL_SIZE && client_fd[k] < 0
        decreases POLL_SIZE - i
      {
        i := i + 1;
      }
    }

    /** A new connection goes into the first free slot. */
    method EventServer(connfd: int)
      requires Valid() && exists i :: 1 <= i < POLL_SIZE && client_fd[i] < 0
      modifies this`maxi, this`slots, client_fd
      ensures Did([], Step(old(Abs()), Accept(connfd)))
    {
      var i := FirstFree();
      AcceptStep(Abs(), connfd, i);
      hide Step;
      SetSlot(i, connfd);
      if i > maxi {
        SetMaxi(i);
      }
    }

    method ConnectionClosed(slot: nat) returns (out: seq<Write>)
      requires Valid() && slot < POLL_SIZE
      modifies this`mapuser, this`roomMap, this`rooms, this`db, this`slots, client_fd, buffers
      ensures Did(out, Step(old(Abs()), Hangup(slot)))
    {
      var sockfd := client_fd[slot];
      var known := FindUserByFd(sockfd);
      out := [];
      if known.Some? {
        var news := NotificationOffline(sockfd, false);
        var off := ChangeStateUserOff(sockfd);
        out := news + off;
      }
      SetSlot(slot, -1);
    }

    /** What the loop does about one ready slot, or about the listening socket. */
    method HandleEvent(e: Event) returns (out: seq<Write>)
      requires Valid() && Enabled(Abs(), e) && !e.Restart?
      modifies this`mapuser, this`roomMap, this`rooms, this`buffers, this`db, this`slots, this`maxi, client_fd, buffers
      ensures Did(out, Step(old(Abs()), e)) && fresh(buffers - old(buffers))
    {
      match e
      case Accept(fd) =>
        ghost var free :| 1 <= free < |slots| && slots[free] < 0;
        assert client_fd[free] == slots[free];
        EventServer(fd);
        out := [];
      case Packet(slot, request) =>
        assert client_fd[slot] == slots[slot];
        out := AnalyzePackage(client_fd[slot], request);
      case Hangup(slot) =>
        out := ConnectionClosed(slot);
      case Restart(_) =>
    }

    method HandleNext(ghost s: State, events: seq<Event>, i: nat) returns (out: seq<Write>)
      requires i < |events| && Legal(s, events) && !events[i].Restart?
      requires Valid() && Abs() == After(s, events[..i])
      modifies this`mapuser, this`roomMap, this`rooms, this`buffers, this`db, this`slots, this`maxi, client_fd, buffers
      ensures Valid() && Abs() == After(s, events[..i + 1]) && fresh(buffers - old(buffers))
      ensures out == WrittenAt(s, events, i)
    {
      LegalPrefix(s, events, i);
      OneMore(s, events, i);
      out := HandleEvent(events[i]);
    }

    /** The poll loop over any run without a restart: the object ends in the state the run leads
        to, and event by event it writes what the steps write. */
    method Execute(events: seq<Event>) returns (outs: seq<seq<Write>>)
      requires Valid() && Legal(Abs(), events) && forall i :: 0 <= i < |events| ==> !events[i].Restart?
      modifies this`mapuser, this`roomMap, this`rooms, this`buffers, this`db, this`slots, this`maxi, client_fd, buffers
      ensures Valid() && Abs() == After(old(Abs()), events)
      ensures |outs| == |events|
      ensures forall i :: 0 <= i < |events| ==> outs[i] == Step(After(old(Abs()), events[..i]), events[i]).out
    {
      hide Step, Enabled, Legal;
      ghost var s := Abs();
      outs := [];
      assert events[..0] == [];
      for i := 0 to |events|
        invariant |outs| == i
        invariant Valid() && Abs() == After(s, events[..i]) && fresh(buffers - old(buffers))
        invariant forall k :: 0 <= k < i ==> outs[k] == WrittenAt(s, events, k)
      {
        var out := HandleNext(s, events, i);
        outs := outs + [out];
      }
      assert events[..|events|] == events;
    }
  }
}
