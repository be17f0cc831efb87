/** Regime B (guarded requests, with restarts): rooms, users and connections agree. */
module Sessions {
  import opened RoomValues
  import opened Tables
  import opened Chat
  import opened Mirror
  import opened Safety

  /** No two online users share a descriptor. */
  predicate Unshared(users: map<string, User>) {
    forall u, v :: u in users && v in users && users[u].fd == users[v].fd && users[u].fd != OFFLINE ==> u == v
  }

  /** Who is online and in a room is in its member array. */
  predicate Placed(x: User, rooms: map<string, RoomValue>) {
    x.fd != OFFLINE && x.state.kind == IN_ROOM ==> x.state.name in rooms && x.fd in rooms[x.state.name].members
  }

  predicate AllPlaced(users: map<string, User>, rooms: map<string, RoomValue>) {
    forall u :: u in users ==> Placed(users[u], rooms)
  }

  /** Someone is bound to f and in room k. */
  predicate Seated(users: map<string, User>, f: int, k: string) {
    f > 0 && exists u :: u in users && users[u].fd == f && users[u].state == Status(IN_ROOM, k)
  }

  predicate AllSeated(users: map<string, User>, rooms: map<string, RoomValue>) {
    forall k, f :: k in rooms && f in rooms[k].members ==> Seated(users, f, k)
  }

  predicate Open(slots: seq<int>, maxi: int, f: int) {
    exists i :: 1 <= i <= maxi && i < |slots| && slots[i] == f
  }

  predicate AllOpen(users: map<string, User>, slots: seq<int>, maxi: int) {
    forall u :: u in users && users[u].fd > 0 ==> Open(slots, maxi, users[u].fd)
  }

  /** Rooms and users agree: no two online users share a descriptor, whoever is online and in a
      room is in its member array, and whoever is in a member array is online and in that room. */
  predicate Matched(s: State) {
    Unshared(s.users) && AllPlaced(s.users, s.rooms) && AllSeated(s.users, s.rooms)
  }

  predicate InSession(s: State) {
    Matched(s) && AllOpen(s.users, s.slots, s.maxi)
  }

  /** The room a user's state names, if it names one, is there and has a place. Only after a
      restart can an offline user's state name a room at all. */
  predicate HomeReady(s: State, name: string)
    requires name in s.users
  {
    var st := s.users[name].state;
    st.kind == IN_ROOM ==> st.name in s.rooms && |s.rooms[st.name].members| < s.rooms[st.name].capacity
  }

  ghost predicate InSomeRoom(users: map<string, User>, f: int) {
    Bound(users, f) && users[First(users, f)].state.kind == IN_ROOM
  }

  /** What the server does not check. A login that is accepted comes from a descriptor nobody is
      bound to, and the user's room, if any, takes the user back. A `withh` or `joinn` that is
      granted does not come from inside a room. */
  ghost predicate RequestGuarded(s: State, f: int, r: Request) {
    match r
    case Login(name, password) => LoginAccepted(s, name, password) ==> !Bound(s.users, f) && HomeReady(s, name)
    case With(name) => name in s.users && s.users[name].fd != f ==> !InSomeRoom(s.users, f)
    case Join(room) => room in s.rooms && AddCode(s.rooms[room], f) > 0 ==> !InSomeRoom(s.users, f)
    case _ => true
  }

  ghost predicate Guarded(s: State, e: Event)
    requires Enabled(s, e)
  {
    e.Packet? ==> RequestGuarded(s, s.slots[e.slot], e.request)
  }

  /** Regime B: every event is enabled and guarded. */
  ghost predicate GuardedRun(s: State, es: seq<Event>) {
    es == [] || (
      var front, last := es[..|es| - 1], es[|es| - 1];
      GuardedRun(s, front) && Enabled(After(s, front), last) && Guarded(After(s, front), last))
  }

  /** With unshared descriptors every scan finds the same user. */
  lemma OwnerIs(users: map<string, User>, u: string)
    requires Unshared(users) && u in users && users[u].fd != OFFLINE
    ensures Bound(users, users[u].fd) && First(users, users[u].fd) == u && Last(users, users[u].fd) == u
  {
    assert u in Holders(users, users[u].fd);
  }

  lemma UnboundMeansAbsent(users: map<string, User>, f: int)
    requires !Bound(users, f)
    ensures forall u :: u in users ==> users[u].fd != f
  {
    forall u | u in users ensures users[u].fd != f {
      assert users[u].fd == f ==> u in Holders(users, f);
    }
  }

  /** Changes to users that leave whoever sits on f in room k alone keep the seat. */
  lemma SeatCarries(users: map<string, User>, after: map<string, User>, f: int, k: string)
    requires Seated(users, f, k)
    requires forall w :: w in users && users[w].fd == f && users[w].state == Status(IN_ROOM, k) ==>
               w in after && after[w] == users[w]
    ensures Seated(after, f, k)
  {
    var w :| w in users && users[w].fd == f && users[w].state == Status(IN_ROOM, k);
    assert w in after && after[w] == users[w];
  }

  // One lemma a handler.

  /** Changing one online user's state, when neither the old nor the new one is a room. */
  lemma RetargetKeepsSession(s: State, u: string, st: Status)
    requires InSession(s) && u in s.users && s.users[u].fd > 0 && s.users[u].state.kind != IN_ROOM && st.kind != IN_ROOM
    ensures InSession(s.(users := PutState(s.users, u, st)))
  {
    var after := PutState(s.users, u, st);
    forall k, f | k in s.rooms && f in s.rooms[k].members ensures Seated(after, f, k) {
      SeatCarries(s.users, after, f, k);
    }
  }

  lemma WithKeepsSession(s: State, f: int, name: string)
    requires InSession(s) && f > 0 && Bound(s.users, f) && RequestGuarded(s, f, With(name))
    ensures InSession(DoWith(s, f, name).s)
  {
    if name in s.users && s.users[name].fd != f {
      RetargetKeepsSession(s, First(s.users, f), Status(WITH_USER, name));
    }
  }

  lemma SeatsAfterEntering(users: map<string, User>, rooms: map<string, RoomValue>, u: string, f: int, room: string)
    requires AllSeated(users, rooms) && room in rooms && u in users && f > 0
    requires users[u].fd == OFFLINE || users[u].state.kind != IN_ROOM
    ensures AllSeated(users[u := users[u].(fd := f, state := Status(IN_ROOM, room))],
                      rooms[room := Add(rooms[room], f)])
  {
    var after := users[u := users[u].(fd := f, state := Status(IN_ROOM, room))];
    var entered := rooms[room := Add(rooms[room], f)];
    forall k, g | k in entered && g in entered[k].members ensures Seated(after, g, k) {
      if g in rooms[k].members {
        SeatCarries(users, after, g, k);
      } else {
        assert u in after && after[u].fd == g;
      }
    }
  }

  lemma PlacesAfterEntering(users: map<string, User>, rooms: map<string, RoomValue>, u: string, f: int, room: string)
    requires AllPlaced(users, rooms) && room in rooms && u in users && AddCode(rooms[room], f) > 0
    ensures AllPlaced(users[u := users[u].(fd := f, state := Status(IN_ROOM, room))],
                      rooms[room := Add(rooms[room], f)])
  {
    var after := users[u := users[u].(fd := f, state := Status(IN_ROOM, room))];
    forall v | v in after ensures Placed(after[v], rooms[room := Add(rooms[room], f)]) {
      assert Placed(users[v], rooms);
    }
  }

  /** Entering a room: what a join and a login back into a room have in common. */
  lemma EnterKeepsSession(s: State, u: string, f: int, room: string)
    requires InSession(s) && f > 0 && u in s.users && Open(s.slots, s.maxi, f)
    requires s.users[u].fd == OFFLINE || (s.users[u].fd == f && s.users[u].state.kind != IN_ROOM)
    requires forall w :: w in s.users && w != u ==> s.users[w].fd != f
    requires room in s.rooms && AddCode(s.rooms[room], f) > 0
    ensures InSession(s.(users := s.users[u := s.users[u].(fd := f, state := Status(IN_ROOM, room))],
                         rooms := s.rooms[room := Add(s.rooms[room], f)]))
  {
    SeatsAfterEntering(s.users, s.rooms, u, f, room);
    PlacesAfterEntering(s.users, s.rooms, u, f, room);
  }

  lemma JoinKeepsSession(s: State, f: int, room: string)
    requires InSession(s) && f > 0 && Bound(s.users, f) && RequestGuarded(s, f, Join(room))
    ensures InSession(DoJoin(s, f, room).s)
  {
    if room in s.rooms && AddCode(s.rooms[room], f) > 0 {
      var u := First(s.users, f);
      EnterKeepsSession(s, u, f, room);
      assert s.users[u].(fd := f, state := Status(IN_ROOM, room)) == s.users[u].(state := Status(IN_ROOM, room));
    }
  }

  /** Leaving the room: what Terminate and a close have in common. */
  lemma LeaveKeepsSession(s: State, f: int, u: string, fd: int)
    requires Sound(s) && InSession(s) && u in s.users && s.users[u].fd == f && f > 0 && (fd == f || fd == OFFLINE)
    requires s.users[u].state.kind == IN_ROOM
    ensures var t := LeaveRoom(s, f, s.users[u].state.name, u).s;
            InSession(t.(users := s.users[u := s.users[u].(state := IDLE_STATE, fd := fd)]))
  {
    var room := s.users[u].state.name;
    var ms := s.rooms[room].members;
    RemoveFirstIsWithout(ms, f);
    var rooms := LeaveRoom(s, f, room, u).s.rooms;
    var after := s.users[u := s.users[u].(state := IDLE_STATE, fd := fd)];
    forall k, g | k in rooms && g in rooms[k].members ensures Seated(after, g, k) {
      assert g in s.rooms[k].members;
      SeatCarries(s.users, after, g, k);
    }
    forall v | v in after ensures Placed(after[v], rooms) {
      assert Placed(s.users[v], s.rooms);
    }
  }

  lemma TerminateKeepsSession(s: State, f: int)
    requires Sound(s) && InSession(s) && f > 0 && Bound(s.users, f)
    ensures InSession(DoTerminate(s, f).s)
  {
    var u := First(s.users, f);
    if s.users[u].state.name != "" {
      if s.users[u].state.kind == IN_ROOM {
        LeaveKeepsSession(s, f, u, f);
        assert s.users[u].(state := IDLE_STATE, fd := f) == s.users[u].(state := IDLE_STATE);
      } else {
        RetargetKeepsSession(s, u, IDLE_STATE);
      }
    }
  }

  lemma BindKeepsSession(s: State, f: int, name: string)
    requires InSession(s) && f > 0 && Open(s.slots, s.maxi, f)
    requires name in s.users && s.users[name].fd == OFFLINE && s.users[name].state.kind != IN_ROOM
    requires forall w :: w in s.users ==> s.users[w].fd != f
    ensures InSession(s.(users := s.users[name := s.users[name].(fd := f)]))
  {
    var after := s.users[name := s.users[name].(fd := f)];
    forall k, g | k in s.rooms && g in s.rooms[k].members ensures Seated(after, g, k) {
      SeatCarries(s.users, after, g, k);
    }
  }

  /** A descriptor nobody is bound to sits in no room. */
  lemma StrangerInNoRoom(s: State, g: int)
    requires AllSeated(s.users, s.rooms) && forall w :: w in s.users ==> s.users[w].fd != g
    ensures forall k :: k in s.rooms ==> g !in s.rooms[k].members
  {
  }

  lemma HomeIsNotRefused(s: State, f: int, name: string)
    requires AllSeated(s.users, s.rooms) && !Bound(s.users, f) && name in s.users && HomeReady(s, name)
    ensures !ReAddRefused(s, f, name)
  {
    UnboundMeansAbsent(s.users, f);
    StrangerInNoRoom(s, f);
  }

  /** The user a login binds is back in the room its state names, at the end of the list. */
  lemma RejoinKeepsSession(s: State, f: int, name: string)
    requires InSession(s) && f > 0 && !Bound(s.users, f) && Open(s.slots, s.maxi, f)
    requires name in s.users && s.users[name].fd == OFFLINE && HomeReady(s, name)
    ensures InSession(Rejoined(s, f, name))
  {
    UnboundMeansAbsent(s.users, f);
    HomeIsNotRefused(s, f, name);
    var x := s.users[name];
    if x.state.kind == IN_ROOM {
      EnterKeepsSession(s, name, f, x.state.name);
      assert x.(fd := f, state := Status(IN_ROOM, x.state.name)) == x.(fd := f);
    } else {
      BindKeepsSession(s, f, name);
    }
  }

  /** A login in session: the re-add is not refused, and the reply, the new user's own mail and
      the notices all go out. */
  lemma LoginShape(s: State, f: int, name: string, password: string)
    requires FdsSound(s.users) && Unshared(s.users) && f > 0 && !Bound(s.users, f)
    requires LoginAccepted(s, name, password) && !ReAddRefused(s, f, name)
    ensures var t := DoLogin(s, f, name, password);
            var u := s.users[name];
            var after := s.users[name := u.(fd := f)];
            var mails := StoredFor(s.db, name);
      && Unshared(after) && Bound(after, f) && First(after, f) == name
      && t.s == Rejoined(s, f, name).(db := if mails == [] then s.db else DeleteMessages(s.db, name))
      && t.s.users == after
      && t.out ==
           [Write(f, LoginOk(name, password, u.role, u.state.name))] + WriteAll(f, Chats(Flushed(mails)))
           + NoticesFrom(after, f, true)
  {
    UnboundMeansAbsent(s.users, f);
    OwnerIs(s.users[name := s.users[name].(fd := f)], name);
  }

  lemma LoginKeepsSession(s: State, f: int, name: string, password: string)
    requires Sound(s) && InSession(s) && f > 0 && Open(s.slots, s.maxi, f)
    requires RequestGuarded(s, f, Login(name, password))
    ensures InSession(DoLogin(s, f, name, password).s)
  {
    if LoginAccepted(s, name, password) {
      HomeIsNotRefused(s, f, name);
      RejoinKeepsSession(s, f, name);
      LoginShape(s, f, name, password);
    }
  }

  /** Accounts come, change and go only while offline. */
  lemma AccountKeepsSession(s: State, users: map<string, User>)
    requires FdsSound(s.users) && FdsSound(users) && InSession(s)
    requires forall u :: u in s.users && s.users[u].fd > 0 ==> u in users && users[u] == s.users[u]
    requires forall u :: u in users && users[u].fd > 0 ==> u in s.users && users[u] == s.users[u]
    ensures InSession(s.(users := users))
  {
    forall k, g | k in s.rooms && g in s.rooms[k].members ensures Seated(users, g, k) {
      SeatCarries(s.users, users, g, k);
    }
  }

  /** Rooms come, change and go only while empty. */
  lemma EmptyRoomKeepsSession(s: State, rooms: map<string, RoomValue>, room: string)
    requires InSession(s) && (room in s.rooms ==> s.rooms[room].members == [])
    requires forall k :: k in rooms && k != room ==> k in s.rooms && rooms[k] == s.rooms[k]
    requires forall k :: k in s.rooms && k != room ==> k in rooms
    requires room in rooms ==> rooms[room].members == []
    ensures InSession(s.(rooms := rooms))
  {
    forall u | u in s.users ensures Placed(s.users[u], rooms) {
      assert Placed(s.users[u], s.rooms);
    }
  }

  predicate AboutAccounts(r: Request) { r.CreateUser? || r.ModifyUser? || r.DeleteUser? }

  predicate AboutRooms(r: Request) { r.CreateRoom? || r.ModifyRoom? || r.DeleteRoom? }

  /** Requests about accounts touch nobody online and change nobody's presence. */
  lemma AccountFrame(s: State, f: int, r: Request, after: map<string, User>)
    requires FdsSound(s.users) && f > 0 && Bound(s.users, f) && AboutAccounts(r) && UsersStep(s, f, r, after)
    ensures forall u :: u in s.users && s.users[u].fd > 0 ==> u in after && after[u] == s.users[u]
    ensures FdsSound(after)
    ensures forall u :: u in after && after[u].fd > 0 ==> u in s.users && after[u] == s.users[u]
  {
  }

  lemma AccountRequestKeepsSession(s: State, f: int, r: Request, after: map<string, User>)
    requires FdsSound(s.users) && InSession(s) && f > 0 && Bound(s.users, f) && AboutAccounts(r)
    requires UsersStep(s, f, r, after)
    ensures InSession(s.(users := after))
  {
    AccountFrame(s, f, r, after);
    AccountKeepsSession(s, after);
    hide UsersStep;
  }

  lemma RoomRequestKeepsSession(s: State, f: int, r: Request, after: map<string, RoomValue>)
    requires InSession(s) && Bound(s.users, f) && AboutRooms(r) && RoomsStep(s, f, r, after)
    ensures InSession(s.(rooms := after))
  {
    if after != s.rooms { EmptyRoomKeepsSession(s, after, r.room); }
  }

  /** An account request touches users only, a room request rooms only, and the rest neither. */
  lemma RequestScope(s: State, f: int, r: Request)
    requires Bound(s.users, f) && !r.Login? && !r.With? && !r.Join? && !r.Terminate?
    ensures var t := Dispatch(s, f, r).s;
      && t.slots == s.slots && t.maxi == s.maxi
      && (AboutAccounts(r) || t.users == s.users)
      && (AboutRooms(r) || t.rooms == s.rooms)
  {
  }

  lemma ScopedChangeKeepsSession(s: State, f: int, r: Request, t: State)
    requires Sound(s) && InSession(s) && f > 0 && Bound(s.users, f)
    requires t.slots == s.slots && t.maxi == s.maxi
    requires (AboutAccounts(r) && UsersStep(s, f, r, t.users)) || t.users == s.users
    requires (AboutRooms(r) && RoomsStep(s, f, r, t.rooms)) || t.rooms == s.rooms
    ensures InSession(t)
  {
    if AboutAccounts(r) && t.users != s.users {
      AccountRequestKeepsSession(s, f, r, t.users);
    } else if AboutRooms(r) && t.rooms != s.rooms {
      RoomRequestKeepsSession(s, f, r, t.rooms);
    }
  }

  lemma OtherRequestKeepsSession(s: State, f: int, r: Request)
    requires Sound(s) && InSession(s) && f > 0 && Bound(s.users, f)
    requires !r.Login? && !r.With? && !r.Join? && !r.Terminate?
    ensures InSession(Dispatch(s, f, r).s)
  {
    RequestScope(s, f, r);
    DispatchUsers(s, f, r);
    DispatchRooms(s, f, r);
    ScopedChangeKeepsSession(s, f, r, Dispatch(s, f, r).s);
  }

  lemma DispatchKeepsSession(s: State, f: int, r: Request)
    requires Sound(s) && InSession(s) && f > 0 && Open(s.slots, s.maxi, f) && RequestGuarded(s, f, r)
    ensures InSession(Dispatch(s, f, r).s)
  {
    hide InSession, DoLogin, DoWith, DoJoin, DoTerminate, DoSend;
    hide DoCreateUser, DoModifyUser, DoDeleteUser, DoCreateRoom, DoModifyRoom, DoDeleteRoom;
    if Bound(s.users, f) || r.Login? {
      if r.Login? { LoginKeepsSession(s, f, r.name, r.password); }
      else if r.With? { WithKeepsSession(s, f, r.name); }
      else if r.Join? { JoinKeepsSession(s, f, r.room); }
      else if r.Terminate? { TerminateKeepsSession(s, f); }
      else { OtherRequestKeepsSession(s, f, r); }
    }
  }

  lemma SwitchOffUsers(s: State, f: int)
    requires Bound(s.users, f)
    ensures var u, t := First(s.users, f), Disconnect(s, f).s;
            t.users == s.users[u := s.users[u].(state := IDLE_STATE, fd := OFFLINE)] && t.db.messages == s.db.messages
  {
  }

  /** Going offline from no room. */
  lemma GoingKeepsSession(s: State, u: string)
    requires InSession(s) && u in s.users && s.users[u].fd > 0 && s.users[u].state.kind != IN_ROOM
    ensures InSession(s.(users := s.users[u := s.users[u].(state := IDLE_STATE, fd := OFFLINE)]))
  {
    var after := s.users[u := s.users[u].(state := IDLE_STATE, fd := OFFLINE)];
    forall k, g | k in s.rooms && g in s.rooms[k].members ensures Seated(after, g, k) {
      SeatCarries(s.users, after, g, k);
    }
  }

  lemma GoneIsUnbound(users: map<string, User>, f: int)
    requires Unshared(users) && f > 0 && Bound(users, f)
    ensures !Bound(users[First(users, f) := users[First(users, f)].(state := IDLE_STATE, fd := OFFLINE)], f)
  {
    var u := First(users, f);
    var after := users[u := users[u].(state := IDLE_STATE, fd := OFFLINE)];
    assert forall v :: v in after && v != u ==> after[v] == users[v];
    assert Holders(after, f) == {};
  }

  lemma DisconnectKeepsSession(s: State, f: int)
    requires Sound(s) && InSession(s) && f > 0
    ensures InSession(Disconnect(s, f).s) && !Bound(Disconnect(s, f).s.users, f)
    ensures Disconnect(s, f).s.slots == s.slots && Disconnect(s, f).s.maxi == s.maxi
  {
    if Bound(s.users, f) {
      var u := First(s.users, f);
      if s.users[u].state.kind == IN_ROOM { LeaveKeepsSession(s, f, u, OFFLINE); } else { GoingKeepsSession(s, u); }
      GoneIsUnbound(s.users, f);
    }
    hide Sound, Unshared, AllPlaced, AllSeated, AllOpen;
  }

  lemma AcceptKeepsSession(s: State, fd: int)
    requires Sound(s) && InSession(s) && Enabled(s, Accept(fd))
    ensures InSession(Step(s, Accept(fd)).s)
  {
    var t := Step(s, Accept(fd)).s;
    forall u | u in t.users && t.users[u].fd > 0 ensures Open(t.slots, t.maxi, t.users[u].fd) {
      assert Open(s.slots, s.maxi, s.users[u].fd);
      var i :| 1 <= i <= s.maxi && i < |s.slots| && s.slots[i] == s.users[u].fd;
      assert t.slots[i] == s.users[u].fd;
    }
  }

  /** A slot is freed only after its descriptor's user is gone. */
  lemma FreeingKeepsOpen(users: map<string, User>, slots: seq<int>, maxi: int, slot: nat)
    requires AllOpen(users, slots, maxi) && slot < |slots| && !Bound(users, slots[slot])
    ensures AllOpen(users, slots[slot := -1], maxi)
  {
    UnboundMeansAbsent(users, slots[slot]);
    forall u | u in users && users[u].fd > 0 ensures Open(slots[slot := -1], maxi, users[u].fd) {
      assert Open(slots, maxi, users[u].fd);
      var i :| 1 <= i <= maxi && i < |slots| && slots[i] == users[u].fd;
      assert slots[slot := -1][i] == users[u].fd;
    }
  }

  lemma HangupKeepsSession(s: State, slot: nat)
    requires Sound(s) && InSession(s) && Enabled(s, Hangup(slot))
    ensures InSession(Step(s, Hangup(slot)).s)
  {
    DisconnectKeepsSession(s, s.slots[slot]);
    var gone := Disconnect(s, s.slots[slot]).s;
    FreeingKeepsOpen(gone.users, gone.slots, gone.maxi, slot);
  }

  /** The start of a run: whatever the users' states, nobody is connected and the rooms are empty. */
  predicate NobodyOnline(s: State) {
    && (forall u :: u in s.users ==> s.users[u].fd == OFFLINE)
    && (forall k :: k in s.rooms ==> s.rooms[k].members == [])
  }

  lemma NobodyIsInSession(s: State)
    requires NobodyOnline(s)
    ensures InSession(s)
  {
  }

  lemma StepKeepsSession(s: State, e: Event)
    requires Sound(s) && InSession(s) && Enabled(s, e) && Guarded(s, e)
    ensures InSession(Step(s, e).s)
  {
    match e
    case Accept(fd) => AcceptKeepsSession(s, fd);
    case Packet(slot, request) =>
      assert Open(s.slots, s.maxi, s.slots[slot]);
      DispatchKeepsSession(s, s.slots[slot], request);
    case Hangup(slot) => HangupKeepsSession(s, slot);
    case Restart(listenfd) => NobodyIsInSession(Boot(s.db, listenfd));
  }

  lemma {:induction false} GuardedIsLegal(s: State, es: seq<Event>)
    requires GuardedRun(s, es)
    ensures Legal(s, es)
  {
    if es != [] { GuardedIsLegal(s, es[..|es| - 1]); }
  }

  /** Regime B, every reachable state: rooms, users and connections agree. */
  lemma {:induction false} AlwaysInSession(s: State, es: seq<Event>)
    requires Sound(s) && NobodyOnline(s) && GuardedRun(s, es)
    ensures Sound(After(s, es)) && InSession(After(s, es))
  {
    if es == [] {
      NobodyIsInSession(s);
    } else {
      var front := es[..|es| - 1];
      AlwaysInSession(s, front);
      StepKeepsSound(After(s, front), es[|es| - 1]);
      StepKeepsSession(After(s, front), es[|es| - 1]);
    }
  }

  // Without the guards.

  lemma LoginBinds(s: State, f: int, name: string, password: string)
    requires LoginAccepted(s, name, password)
    ensures var t, bound := DoLogin(s, f, name, password).s, Rejoined(s, f, name);
            t.users == bound.users && t.rooms == bound.rooms
  {
  }

  lemma SharingBreaks(users: map<string, User>, name: string, f: int)
    requires Bound(users, f) && f > 0 && name in users && users[name].fd != f
    ensures !Unshared(users[name := users[name].(fd := f)])
  {
    var w, after := First(users, f), users[name := users[name].(fd := f)];
    assert w != name && after[w].fd == after[name].fd;
  }

  lemma HomelessBreaks(s: State, f: int, name: string)
    requires AllSeated(s.users, s.rooms) && f > 0 && !Bound(s.users, f) && name in s.users && !HomeReady(s, name)
    ensures var t := Rejoined(s, f, name); !Placed(t.users[name], t.rooms)
  {
    UnboundMeansAbsent(s.users, f);
    StrangerInNoRoom(s, f);
  }

  /** An accepted login breaks the agreement if its descriptor is taken, or if the user's room is
      missing or full. */
  lemma UnguardedLoginBreaks(s: State, f: int, name: string, password: string)
    requires Sound(s) && InSession(s) && f > 0 && !RequestGuarded(s, f, Login(name, password))
    ensures !Matched(DoLogin(s, f, name, password).s)
  {
    LoginBinds(s, f, name, password);
    if Bound(s.users, f) { SharingBreaks(s.users, name, f); } else { HomelessBreaks(s, f, name); }
    hide DoLogin, Sound, Unshared, Placed, AllSeated;
  }

  /** Moving on from a room without leaving it breaks the agreement: the array keeps a descriptor
      whose user is elsewhere. */
  lemma MovingOnBreaks(s: State, f: int, t: State, st: Status)
    requires InSession(s) && f > 0 && InSomeRoom(s.users, f)
    requires var u := First(s.users, f);
      && t.users == PutState(s.users, u, st) && st != s.users[u].state
      && s.users[u].state.name in t.rooms && f in t.rooms[s.users[u].state.name].members
    ensures !Matched(t)
  {
    var u := First(s.users, f);
    assert forall w :: w in t.users && t.users[w].fd == f ==> w == u;
    assert !Seated(t.users, f, s.users[u].state.name);
  }

  lemma UnguardedWithBreaks(s: State, f: int, name: string)
    requires InSession(s) && f > 0 && Bound(s.users, f) && !RequestGuarded(s, f, With(name))
    ensures !Matched(DoWith(s, f, name).s)
  {
    assert Placed(s.users[First(s.users, f)], s.rooms);
    MovingOnBreaks(s, f, DoWith(s, f, name).s, Status(WITH_USER, name));
  }

  lemma UnguardedJoinBreaks(s: State, f: int, room: string)
    requires InSession(s) && f > 0 && Bound(s.users, f) && !RequestGuarded(s, f, Join(room))
    ensures !Matched(DoJoin(s, f, room).s)
  {
    assert Placed(s.users[First(s.users, f)], s.rooms);
    MovingOnBreaks(s, f, DoJoin(s, f, room).s, Status(IN_ROOM, room));
  }

  lemma UnguardedRequestBreaks(s: State, f: int, r: Request)
    requires Sound(s) && InSession(s) && f > 0 && !RequestGuarded(s, f, r)
    ensures !Matched(Dispatch(s, f, r).s)
  {
    hide Matched, DoLogin, DoWith, DoJoin;
    if r.Login? { UnguardedLoginBreaks(s, f, r.name, r.password); }
    else if r.With? { UnguardedWithBreaks(s, f, r.name); }
    else { UnguardedJoinBreaks(s, f, r.room); }
  }

  /** One event keeps the agreement if and only if it is guarded. */
  lemma StepIff(s: State, e: Event)
    requires Sound(s) && InSession(s) && Enabled(s, e)
    ensures Guarded(s, e) ==> InSession(Step(s, e).s)
    ensures Matched(Step(s, e).s) <==> Guarded(s, e)
  {
    if Guarded(s, e) { StepKeepsSession(s, e); } else { UnguardedRequestBreaks(s, s.slots[e.slot], e.request); }
    hide Unshared, AllPlaced, AllSeated, AllOpen, Dispatch;
  }

  /** Rooms and users agreed after every event. */
  ghost predicate AlwaysMatched(s: State, es: seq<Event>) {
    Matched(After(s, es)) && (es == [] || AlwaysMatched(s, es[..|es| - 1]))
  }

  /** Regime B is exactly what keeps rooms and users in agreement. */
  lemma {:induction false} MatchedIffGuarded(s: State, es: seq<Event>)
    requires Sound(s) && NobodyOnline(s) && Legal(s, es)
    ensures AlwaysMatched(s, es) <==> GuardedRun(s, es)
  {
    hide Matched, Step, Sound;
    if es == [] {
      NobodyIsInSession(s);
    } else {
      var front := es[..|es| - 1];
      MatchedIffGuarded(s, front);
      if GuardedRun(s, front) {
        AlwaysInSession(s, front);
        StepIff(After(s, front), es[|es| - 1]);
      }
    }
  }
}
