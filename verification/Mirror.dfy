/** Regime A (any packets, with restarts): the maps in memory and the tables agree. */
module Mirror {
  import opened RoomValues
  import opened Tables
  import opened Chat

  /** Every room is filed under its own id, bounded and duplicate-free. */
  predicate RoomsSound(rooms: map<string, RoomValue>) {
    forall k :: k in rooms ==> rooms[k].id == k && WellFormed(rooms[k])
  }

  predicate FdsSound(users: map<string, User>) {
    forall u :: u in users ==> users[u].fd == OFFLINE || users[u].fd > 0
  }

  /** No descriptor sits in two slots, and nothing sits above `maxi`. */
  predicate SlotsSound(slots: seq<int>, maxi: int) {
    && |slots| == POLL_SIZE
    && 0 <= maxi < POLL_SIZE
    && (forall i :: 0 < i < |slots| ==> slots[i] == -1 || slots[i] > 0)
    && (forall i :: maxi < i < |slots| ==> slots[i] == -1)
    && (forall i, j :: 0 <= i < j < |slots| && slots[i] == slots[j] ==> slots[i] == -1)
  }

  predicate RowMatches(u: User, row: Row) {
    && u.password == row.password
    && u.role == row.role
    && TextOf(u.state) == ReadColumn(row.column)
  }

  predicate UsersMirrored(users: map<string, User>, rows: map<string, Row>) {
    users.Keys == rows.Keys && forall u :: u in users ==> RowMatches(users[u], rows[u])
  }

  predicate RoomsMirrored(rooms: map<string, RoomValue>, rows: map<string, int>) {
    rooms.Keys == rows.Keys && forall k :: k in rooms ==> rooms[k].capacity == Usable(rows[k])
  }

  predicate Sound(s: State) {
    && RoomsSound(s.rooms)
    && FdsSound(s.users)
    && SlotsSound(s.slots, s.maxi)
    && UsersMirrored(s.users, s.db.users)
    && RoomsMirrored(s.rooms, s.db.rooms)
  }

  lemma BootIsSound(db: Database, listenfd: int)
    requires listenfd >= 0
    ensures Sound(Boot(db, listenfd))
  {
    forall u | u in db.users ensures RowMatches(UserOf(db.users[u]), db.users[u]) {
      TextRoundTrip(ReadColumn(db.users[u].column));
    }
  }

  /** A user's state changes in the map and in the column at once. */
  lemma StateChangeKeepsSound(s: State, u: string, st: Status, fd: int)
    requires Sound(s) && u in s.users && (fd == OFFLINE || fd > 0)
    ensures Sound(s.(users := s.users[u := s.users[u].(state := st, fd := fd)], db := SetState(s.db, u, st)))
  {
  }

  lemma AddKeepsSound(s: State, f: int, room: string)
    requires Sound(s) && room in s.rooms
    ensures Sound(s.(rooms := s.rooms[room := Add(s.rooms[room], f)]))
  {
  }

  /** One room's members change. */
  lemma LeaveKeepsSound(s: State, f: int, room: string, who: string)
    requires Sound(s)
    ensures var t := LeaveRoom(s, f, room, who).s;
            Sound(t) && t == s.(rooms := t.rooms)
  {
    if room in s.rooms {
      RemoveFirstIsWithout(s.rooms[room].members, f);
      RemoveFirstLength(s.rooms[room].members, f);
    }
  }

  lemma CreateUserKeepsSound(s: State, f: int, name: string, password: string, role: int)
    requires Sound(s) && f > 0
    ensures Sound(DoCreateUser(s, f, name, password, role).s)
  {
  }

  lemma DeleteUserKeepsSound(s: State, f: int, name: string)
    requires Sound(s) && f > 0
    ensures Sound(DoDeleteUser(s, f, name).s)
  {
  }

  lemma ModifyUserKeepsSound(s: State, f: int, name: string, password: string, role: int)
    requires Sound(s) && f > 0
    ensures Sound(DoModifyUser(s, f, name, password, role).s)
  {
  }

  lemma WithKeepsSound(s: State, f: int, name: string)
    requires Sound(s) && f > 0 && Bound(s.users, f)
    ensures Sound(DoWith(s, f, name).s)
  {
    StateChangeKeepsSound(s, First(s.users, f), Status(WITH_USER, name), f);
  }

  lemma SendKeepsSound(s: State, f: int, text: string, time: int)
    requires Sound(s) && f > 0 && Bound(s.users, f)
    ensures Sound(DoSend(s, f, text, time).s)
  {
  }

  lemma TerminateKeepsSound(s: State, f: int)
    requires Sound(s) && f > 0 && Bound(s.users, f)
    ensures Sound(DoTerminate(s, f).s)
  {
    var u := First(s.users, f);
    var st := s.users[u].state;
    var gone := if st.kind == IN_ROOM then LeaveRoom(s, f, st.name, u).s else s;
    LeaveKeepsSound(s, f, st.name, u);
    StateChangeKeepsSound(gone, u, IDLE_STATE, f);
  }

  lemma JoinKeepsSound(s: State, f: int, room: string)
    requires Sound(s) && f > 0 && Bound(s.users, f)
    ensures Sound(DoJoin(s, f, room).s)
  {
    if room in s.rooms {
      var u, st := First(s.users, f), Status(IN_ROOM, room);
      AddKeepsSound(s, f, room);
      StateChangeKeepsSound(s.(rooms := s.rooms[room := Add(s.rooms[room], f)]), u, st, f);
      assert SetState(ClearState(s.db, u), u, st) == SetState(s.db, u, st);
    }
  }

  lemma BindKeepsSound(s: State, f: int, name: string)
    requires Sound(s) && f > 0 && name in s.users
    ensures Sound(s.(users := s.users[name := s.users[name].(fd := f)]))
  {
  }

  lemma WelcomeKeepsSound(s: State, f: int, reply: Reply)
    requires Sound(s) && Bound(s.users, f)
    ensures Sound(Welcome(s, f, reply).s)
  {
  }

  lemma LoginKeepsSound(s: State, f: int, name: string, password: string)
    requires Sound(s) && f > 0
    ensures Sound(DoLogin(s, f, name, password).s)
  {
    if LoginAccepted(s, name, password) {
      var u, back := s.users[name], Rejoined(s, f, name);
      BindKeepsSound(s, f, name);
      if u.state.name in s.rooms {
        AddKeepsSound(s.(users := s.users[name := u.(fd := f)]), f, u.state.name);
      }
      assert Sound(back) && name in Holders(back.users, f);
      WelcomeKeepsSound(back, f, LoginOk(name, u.password, u.role, u.state.name));
    }
  }

  lemma CreateRoomKeepsSound(s: State, f: int, room: string, capacity: int)
    requires Sound(s) && f > 0
    ensures Sound(DoCreateRoom(s, f, room, capacity).s)
  {
  }

  lemma ModifyRoomKeepsSound(s: State, f: int, room: string, capacity: int)
    requires Sound(s) && f > 0
    ensures Sound(DoModifyRoom(s, f, room, capacity).s)
  {
  }

  lemma DeleteRoomKeepsSound(s: State, f: int, room: string)
    requires Sound(s) && f > 0
    ensures Sound(DoDeleteRoom(s, f, room).s)
  {
  }

  lemma AdminRequestKeepsSound(s: State, f: int, r: Request)
    requires Sound(s) && f > 0 && Bound(s.users, f)
    requires !r.Login? && !r.With? && !r.Join? && !r.Send? && !r.Terminate?
    ensures Sound(Dispatch(s, f, r).s)
  {
    hide Sound, DoCreateUser, DoModifyUser, DoDeleteUser, DoCreateRoom, DoModifyRoom, DoDeleteRoom;
    match r
    case CreateUser(name, password, role) => CreateUserKeepsSound(s, f, name, password, role);
    case ModifyUser(name, password, role) => ModifyUserKeepsSound(s, f, name, password, role);
    case DeleteUser(name) => DeleteUserKeepsSound(s, f, name);
    case CreateRoom(room, capacity) => CreateRoomKeepsSound(s, f, room, capacity);
    case ModifyRoom(room, capacity) => ModifyRoomKeepsSound(s, f, room, capacity);
    case DeleteRoom(room) => DeleteRoomKeepsSound(s, f, room);
    case _ =>
  }

  lemma DispatchKeepsSound(s: State, f: int, r: Request)
    requires Sound(s) && f > 0
    ensures Sound(Dispatch(s, f, r).s)
  {
    hide Sound, DoLogin, DoWith, DoJoin, DoSend, DoTerminate;
    if Bound(s.users, f) || r.Login? {
      match r
      case Login(name, password) => LoginKeepsSound(s, f, name, password);
      case With(name) => WithKeepsSound(s, f, name);
      case Join(room) => JoinKeepsSound(s, f, room);
      case Send(text, time) => SendKeepsSound(s, f, text, time);
      case Terminate => TerminateKeepsSound(s, f);
      case _ => AdminRequestKeepsSound(s, f, r);
    }
  }

  lemma DisconnectKeepsSound(s: State, f: int)
    requires Sound(s) && f > 0
    ensures Sound(Disconnect(s, f).s) && Disconnect(s, f).s.slots == s.slots && Disconnect(s, f).s.maxi == s.maxi
  {
    if Bound(s.users, f) {
      var u := First(s.users, f);
      var st := s.users[u].state;
      var gone := if st.kind == IN_ROOM then LeaveRoom(s, f, st.name, u).s else s;
      LeaveKeepsSound(s, f, st.name, u);
      StateChangeKeepsSound(gone, u, IDLE_STATE, OFFLINE);
    }
  }

  lemma AcceptKeepsSound(s: State, fd: int)
    requires Sound(s) && Enabled(s, Accept(fd))
    ensures Sound(Step(s, Accept(fd)).s)
  {
    assert UsersMirrored(s.users, s.db.users) && RoomsMirrored(s.rooms, s.db.rooms);
  }

  lemma StepKeepsSound(s: State, e: Event)
    requires Sound(s) && Enabled(s, e)
    ensures Sound(Step(s, e).s)
  {
    match e
    case Accept(fd) => AcceptKeepsSound(s, fd);
    case Packet(slot, request) => DispatchKeepsSound(s, s.slots[slot], request);
    case Hangup(slot) =>
      DisconnectKeepsSound(s, s.slots[slot]);
      var gone := Disconnect(s, s.slots[slot]).s;
      assert SlotsSound(gone.slots[slot := -1], gone.maxi);
    case Restart(listenfd) => BootIsSound(s.db, listenfd);
  }

  /** After every handler, over any run with restarts: the user map and the users table agree
      on name, password, role and state, the room map and the rooms table on id and capacity. */
  lemma {:induction false} AlwaysSound(s: State, es: seq<Event>)
    requires Sound(s) && Legal(s, es)
    ensures Sound(After(s, es))
  {
    if es != [] {
      AlwaysSound(s, es[..|es| - 1]);
      StepKeepsSound(After(s, es[..|es| - 1]), es[|es| - 1]);
    }
  }

  /** What a restart recovers: every account with its password and role, offline, and every
      room with its capacity, empty. A user's state comes back exactly when it is faithful. */
  lemma RestartRecovers(s: State, listenfd: int)
    requires Sound(s)
    ensures var t := Boot(s.db, listenfd);
      && t.users.Keys == s.users.Keys
      && (forall u :: u in s.users ==>
            t.users[u] == s.users[u].(fd := OFFLINE, state := Decode(TextOf(s.users[u].state))))
      && t.rooms == map k | k in s.rooms :: s.rooms[k].(members := [])
    ensures (forall u :: u in s.users ==> Boot(s.db, listenfd).users[u].state == s.users[u].state)
       <==> (forall u :: u in s.users ==> Faithful(s.users[u].state))
  {
    var t := Boot(s.db, listenfd);
    forall u | u in s.users
      ensures t.users[u] == s.users[u].(fd := OFFLINE, state := Decode(TextOf(s.users[u].state)))
      ensures t.users[u].state == s.users[u].state <==> Faithful(s.users[u].state)
    {
      assert RowMatches(s.users[u], s.db.users[u]);
      StateRoundTrip(s.users[u].state);
    }
  }

  /** The state that does not survive: talking to a user whose name looks like a room's. */
  lemma LookalikeComesBackAsRoom(name: string)
    ensures Decode(TextOf(Status(WITH_USER, ROOM_PREFIX + name))) == Status(IN_ROOM, name)
  {
    assert ROOM_PREFIX <= ROOM_PREFIX + name;
    assert (ROOM_PREFIX + name)[5..] == name;
  }
}
