/** Regime A (any packets, with restarts): what no client can break. */
module Safety {
  import opened RoomValues
  import opened Tables
  import opened Chat
  import opened Mirror

  /** How one request can change the user map. */
  ghost predicate UsersStep(s: State, f: int, r: Request, after: map<string, User>)
    requires Bound(s.users, f) || r.Login?
  {
    || after == s.users
    || match r
       case CreateUser(name, password, role) =>
         && IsAdmin(s.users, f) && name !in s.users && name != ""
         && after == s.users[name := User(password, Granted(role), IDLE_STATE, OFFLINE)]
       case DeleteUser(name) =>
         && IsAdmin(s.users, f) && name in s.users && s.users[name].fd <= 0
         && after == s.users - {name}
       case ModifyUser(name, password, role) =>
         && IsAdmin(s.users, f) && name in s.users && s.users[name].fd <= 0
         && after == s.users[name := s.users[name].(password := password, role := Granted(role))]
       case With(name) =>
         && name in s.users && s.users[name].fd != f
         && after == PutState(s.users, First(s.users, f), Status(WITH_USER, name))
       case Join(room) =>
         room in s.rooms && after == PutState(s.users, First(s.users, f), Status(IN_ROOM, room))
       case Terminate =>
         after == PutState(s.users, First(s.users, f), IDLE_STATE)
       case Login(name, password) =>
         && LoginAccepted(s, name, password)
         && after == s.users[name := s.users[name].(fd := f)]
       case _ => false
  }

  /** How one event can. */
  ghost predicate UsersEvolve(s: State, e: Event, after: map<string, User>)
    requires Enabled(s, e)
  {
    match e
    case Accept(_) => after == s.users
    case Packet(slot, r) =>
      if Bound(s.users, s.slots[slot]) || r.Login? then UsersStep(s, s.slots[slot], r, after) else after == s.users
    case Hangup(slot) =>
      if Bound(s.users, s.slots[slot]) then
        var u := First(s.users, s.slots[slot]);
        after == s.users[u := s.users[u].(state := IDLE_STATE, fd := OFFLINE)]
      else after == s.users
    case Restart(_) => after == MapUser(s.db)
  }

  /** How one request can change the room map. */
  ghost predicate RoomsStep(s: State, f: int, r: Request, after: map<string, RoomValue>)
    requires Bound(s.users, f) || r.Login?
  {
    || after == s.rooms
    || match r
       case CreateRoom(room, capacity) =>
         && IsAdmin(s.users, f) && room !in s.rooms && capacity >= 0
         && after == s.rooms[room := RoomValue(room, capacity, [])]
       case ModifyRoom(room, capacity) =>
         && RoleOneOn(s.users, f) && room in s.rooms && s.rooms[room].members == []
         && after == s.rooms[room := RoomValue(room, capacity, [])]
       case DeleteRoom(room) =>
         && RoleOneOn(s.users, f) && room in s.rooms && s.rooms[room].members == []
         && after == s.rooms - {room}
       case Join(room) => room in s.rooms && after == s.rooms[room := Add(s.rooms[room], f)]
       case Login(name, _) =>
         && name in s.users && s.users[name].state.name in s.rooms
         && after == s.rooms[s.users[name].state.name := Add(s.rooms[s.users[name].state.name], f)]
       case Terminate => after == LeaveRoom(s, f, s.users[First(s.users, f)].state.name, "").s.rooms
       case _ => false
  }

  /** How one request can change the message table. */
  ghost predicate MessagesStep(s: State, f: int, r: Request, after: seq<StoredMail>)
    requires Bound(s.users, f) || r.Login?
  {
    || after == s.db.messages
    || match r
       case Send(text, time) =>
         var u := Last(s.users, f);
         && s.users[u].state.name in s.users
         && after == s.db.messages + [StoredMail(s.users[u].state.name, Mail(u, text, time))]
       case Login(name, _) => exists u :: after == Others(s.db.messages, u)
       case _ => false
  }

  lemma AccountUsers(s: State, f: int, r: Request)
    requires Bound(s.users, f) && (r.CreateUser? || r.ModifyUser? || r.DeleteUser?)
    ensures UsersStep(s, f, r, Dispatch(s, f, r).s.users)
  {
    hide IsAdmin;
  }

  lemma DispatchUsers(s: State, f: int, r: Request)
    requires Bound(s.users, f) || r.Login?
    ensures UsersStep(s, f, r, Dispatch(s, f, r).s.users)
  {
    if r.CreateUser? || r.ModifyUser? || r.DeleteUser? { AccountUsers(s, f, r); }
    hide DoCreateUser, DoModifyUser, DoDeleteUser;
  }

  lemma CapacityRooms(s: State, f: int, r: Request)
    requires Bound(s.users, f) && (r.CreateRoom? || r.ModifyRoom? || r.DeleteRoom?)
    ensures RoomsStep(s, f, r, Dispatch(s, f, r).s.rooms)
  {
    hide IsAdmin, RoleOneOn;
  }

  lemma DispatchRooms(s: State, f: int, r: Request)
    requires Bound(s.users, f) || r.Login?
    ensures RoomsStep(s, f, r, Dispatch(s, f, r).s.rooms)
  {
    if r.CreateRoom? || r.ModifyRoom? || r.DeleteRoom? { CapacityRooms(s, f, r); }
    hide DoCreateRoom, DoModifyRoom, DoDeleteRoom;
  }

  lemma DispatchMessages(s: State, f: int, r: Request)
    requires Bound(s.users, f) || r.Login?
    ensures MessagesStep(s, f, r, Dispatch(s, f, r).s.db.messages)
  {
  }

  lemma StepUsers(s: State, e: Event)
    requires Enabled(s, e)
    ensures UsersEvolve(s, e, Step(s, e).s.users)
  {
    if e.Packet? && (Bound(s.users, s.slots[e.slot]) || e.request.Login?) {
      DispatchUsers(s, s.slots[e.slot], e.request);
    }
  }

  // Administrators.

  ghost predicate HasAdmin(users: map<string, User>) {
    exists u :: u in users && users[u].role == ADMIN
  }

  predicate RolesValid(users: map<string, User>) {
    forall u :: u in users ==> users[u].role in {ADMIN, ORDINARY}
  }

  lemma RequestKeepsAdmin(s: State, f: int, r: Request, after: map<string, User>)
    requires f > 0 && (Bound(s.users, f) || r.Login?) && UsersStep(s, f, r, after) && HasAdmin(s.users)
    ensures HasAdmin(after)
  {
    if (r.DeleteUser? || r.ModifyUser?) && after != s.users {
      var acting := First(s.users, f);
      assert acting in after && after[acting].role == ADMIN;
    } else {
      var a :| a in s.users && s.users[a].role == ADMIN;
      assert a in after && after[a].role == ADMIN;
    }
  }

  /** A restart gives back every role. */
  lemma RestartKeepsRoles(s: State)
    requires UsersMirrored(s.users, s.db.users)
    ensures MapUser(s.db).Keys == s.users.Keys
    ensures forall u :: u in s.users ==> MapUser(s.db)[u].role == s.users[u].role
  {
    forall u | u in s.users ensures MapUser(s.db)[u].role == s.users[u].role {
      assert RowMatches(s.users[u], s.db.users[u]);
    }
  }

  lemma EvolveKeepsAdmin(s: State, e: Event, after: map<string, User>)
    requires Sound(s) && Enabled(s, e) && HasAdmin(s.users) && UsersEvolve(s, e, after)
    ensures HasAdmin(after)
  {
    if e.Packet? && after != s.users {
      RequestKeepsAdmin(s, s.slots[e.slot], e.request, after);
    } else {
      if e.Restart? { RestartKeepsRoles(s); }
      var a :| a in s.users && s.users[a].role == ADMIN;
      assert a in after && after[a].role == ADMIN;
    }
  }

  /** The last administrator can be neither demoted nor deleted, over any run. */
  lemma {:induction false} AlwaysAnAdmin(s: State, es: seq<Event>)
    requires Sound(s) && Legal(s, es) && HasAdmin(s.users)
    ensures HasAdmin(After(s, es).users)
  {
    if es != [] {
      var front := es[..|es| - 1];
      AlwaysAnAdmin(s, front);
      AlwaysSound(s, front);
      StepUsers(After(s, front), es[|es| - 1]);
      EvolveKeepsAdmin(After(s, front), es[|es| - 1], After(s, es).users);
    }
  }

  lemma EvolveKeepsRoles(s: State, e: Event, after: map<string, User>)
    requires UsersMirrored(s.users, s.db.users) && Enabled(s, e) && RolesValid(s.users) && UsersEvolve(s, e, after)
    ensures RolesValid(after)
  {
    if e.Restart? { RestartKeepsRoles(s); }
  }

  /** There are two roles, over any run. */
  lemma {:induction false} RolesStay(s: State, es: seq<Event>)
    requires Sound(s) && Legal(s, es) && RolesValid(s.users)
    ensures RolesValid(After(s, es).users)
  {
    if es != [] {
      var front := es[..|es| - 1];
      RolesStay(s, front);
      AlwaysSound(s, front);
      StepUsers(After(s, front), es[|es| - 1]);
      EvolveKeepsRoles(After(s, front), es[|es| - 1], After(s, es).users);
    }
  }

  // Names.

  predicate NamesPlain(users: map<string, User>) {
    forall u :: u in users ==> PlainName(u) && Faithful(users[u].state)
  }

  predicate CreatesPlainly(e: Event) {
    e.Packet? && e.request.CreateUser? ==> !(ROOM_PREFIX <= e.request.name)
  }

  lemma RequestKeepsPlain(s: State, f: int, r: Request, after: map<string, User>)
    requires (Bound(s.users, f) || r.Login?) && UsersStep(s, f, r, after) && NamesPlain(s.users)
    requires r.CreateUser? ==> !(ROOM_PREFIX <= r.name)
    ensures NamesPlain(after)
  {
  }

  lemma RestartKeepsPlain(s: State)
    requires UsersMirrored(s.users, s.db.users) && NamesPlain(s.users)
    ensures NamesPlain(MapUser(s.db))
    ensures MapUser(s.db) == map u | u in s.users :: s.users[u].(fd := OFFLINE)
  {
    forall u | u in s.users ensures u in MapUser(s.db) && MapUser(s.db)[u] == s.users[u].(fd := OFFLINE) {
      assert RowMatches(s.users[u], s.db.users[u]);
      StateRoundTrip(s.users[u].state);
    }
  }

  lemma EvolveKeepsPlain(s: State, e: Event, after: map<string, User>)
    requires Sound(s) && Enabled(s, e) && NamesPlain(s.users) && CreatesPlainly(e) && UsersEvolve(s, e, after)
    ensures NamesPlain(after)
  {
    match e
    case Accept(_) =>
    case Packet(slot, r) =>
      if after != s.users { RequestKeepsPlain(s, s.slots[slot], r, after); }
    case Hangup(slot) =>
    case Restart(_) => RestartKeepsPlain(s);
  }

  /** As long as no account is named like a room's column entry, a restart at any point of any
      run gives back every user's state. */
  lemma {:induction false} RestartKeepsStates(s: State, es: seq<Event>, listenfd: int)
    requires Sound(s) && Legal(s, es) && NamesPlain(s.users)
    requires forall i :: 0 <= i < |es| ==> CreatesPlainly(es[i])
    ensures NamesPlain(After(s, es).users)
    ensures Sound(After(s, es))
    ensures var t := After(s, es);
            Boot(t.db, listenfd).users == map u | u in t.users :: t.users[u].(fd := OFFLINE)
  {
    AlwaysSound(s, es);
    if es != [] {
      var front := es[..|es| - 1];
      RestartKeepsStates(s, front, listenfd);
      assert CreatesPlainly(es[|es| - 1]);
      StepUsers(After(s, front), es[|es| - 1]);
      EvolveKeepsPlain(After(s, front), es[|es| - 1], After(s, es).users);
    }
    RestartKeepsPlain(After(s, es));
  }

  // Non-interference.

  function MembersOf(rooms: map<string, RoomValue>, room: string): seq<int> {
    if room in rooms then rooms[room].members else []
  }

  lemma LeaveKeepsOthers(s: State, f: int, room: string, who: string, k: string)
    requires RoomsSound(s.rooms)
    ensures Without(MembersOf(LeaveRoom(s, f, room, who).s.rooms, k), f) == Without(MembersOf(s.rooms, k), f)
  {
    if room in s.rooms && k == room {
      var ms := s.rooms[room].members;
      RemoveFirstIsWithout(ms, f);
      WithoutAbsent(Without(ms, f), f);
    }
  }

  lemma WithoutAdded(ms: seq<int>, f: int)
    ensures Without(ms + [f], f) == Without(ms, f)
  {
    WithoutConcat(ms, [f], f);
    assert Without([f], f) == [];
    assert Without(ms, f) + [] == Without(ms, f);
  }

  lemma RequestKeepsOthers(s: State, f: int, r: Request, after: map<string, RoomValue>, k: string)
    requires RoomsSound(s.rooms) && (Bound(s.users, f) || r.Login?) && RoomsStep(s, f, r, after)
    ensures Without(MembersOf(after, k), f) == Without(MembersOf(s.rooms, k), f)
  {
    WithoutAdded(MembersOf(s.rooms, k), f);
    hide Without;
    if r.Terminate? { LeaveKeepsOthers(s, f, s.users[First(s.users, f)].state.name, "", k); }
  }

  lemma EvolveKeepsOthers(s: State, e: Event, after: map<string, User>, w: string)
    requires FdsSound(s.users) && Enabled(s, e) && (e.Packet? || e.Hangup?) && UsersEvolve(s, e, after)
    requires w in s.users && s.users[w].fd > 0 && s.users[w].fd != Origin(s, e)
    ensures w in after && after[w] == s.users[w]
  {
  }

  /** A request or a close on one descriptor leaves every online user on another descriptor
      exactly as it was, and the other members of every room in the order they were in. */
  lemma NonInterference(s: State, e: Event, w: string, k: string)
    requires Sound(s) && Enabled(s, e) && (e.Packet? || e.Hangup?)
    requires w in s.users && s.users[w].fd > 0 && s.users[w].fd != Origin(s, e)
    ensures w in Step(s, e).s.users && Step(s, e).s.users[w] == s.users[w]
    ensures Without(MembersOf(Step(s, e).s.rooms, k), Origin(s, e)) == Without(MembersOf(s.rooms, k), Origin(s, e))
    ensures s.users[w].fd in MembersOf(Step(s, e).s.rooms, k) <==> s.users[w].fd in MembersOf(s.rooms, k)
  {
    var f := Origin(s, e);
    var t := Step(s, e).s;
    StepUsers(s, e);
    EvolveKeepsOthers(s, e, t.users, w);
    if Bound(s.users, f) || (e.Packet? && e.request.Login?) {
      if e.Packet? {
        DispatchRooms(s, f, e.request);
        RequestKeepsOthers(s, f, e.request, t.rooms, k);
      } else {
        LeaveKeepsOthers(s, f, s.users[First(s.users, f)].state.name, First(s.users, f), k);
      }
    }
    assert forall g :: g != f ==> (g in MembersOf(t.rooms, k) <==> g in Without(MembersOf(t.rooms, k), f));
  }

  lemma UnprivilegedChanges(s: State, f: int, r: Request, users: map<string, User>, rooms: map<string, RoomValue>)
    requires (Bound(s.users, f) || r.Login?) && !RoleOneOn(s.users, f)
    requires UsersStep(s, f, r, users) && RoomsStep(s, f, r, rooms)
    ensures users.Keys == s.users.Keys && rooms.Keys == s.rooms.Keys
    ensures forall u :: u in s.users ==> users[u].password == s.users[u].password && users[u].role == s.users[u].role
    ensures forall k :: k in s.rooms ==> rooms[k].capacity == s.rooms[k].capacity
  {
  }

  /** Accounts with their passwords and roles, rooms with their capacities. */
  predicate SameDirectory(s: State, t: State) {
    && t.users.Keys == s.users.Keys
    && (forall u :: u in s.users ==> t.users[u].password == s.users[u].password && t.users[u].role == s.users[u].role)
    && t.rooms.Keys == s.rooms.Keys
    && (forall k :: k in s.rooms ==> t.rooms[k].capacity == s.rooms[k].capacity)
  }

  lemma RequestKeepsDirectory(s: State, f: int, r: Request)
    requires f > 0 && forall u :: u in s.users && s.users[u].fd == f ==> s.users[u].role != 1
    ensures SameDirectory(s, Dispatch(s, f, r).s)
  {
    assert !RoleOneOn(s.users, f);
    if Bound(s.users, f) || r.Login? {
      var t := Dispatch(s, f, r).s;
      DispatchUsers(s, f, r);
      DispatchRooms(s, f, r);
      UnprivilegedChanges(s, f, r, t.users, t.rooms);
    }
  }

  lemma CloseKeepsDirectory(s: State, f: int)
    ensures SameDirectory(s, Disconnect(s, f).s)
  {
  }

  /** Only an administrator's request changes who has an account, its password or role, or
      which rooms there are and how large: no request does from a descriptor whose users all have
      another role than 1, and no accept, close or restart. */
  lemma OnlyAdminsEdit(s: State, e: Event)
    requires Sound(s) && Enabled(s, e)
    requires e.Packet? ==> forall u :: u in s.users && s.users[u].fd == Origin(s, e) ==> s.users[u].role != 1
    ensures SameDirectory(s, Step(s, e).s)
  {
    match e
    case Accept(_) =>
    case Packet(slot, r) => RequestKeepsDirectory(s, s.slots[slot], r);
    case Hangup(slot) => CloseKeepsDirectory(s, s.slots[slot]);
    case Restart(listenfd) => RestartRecovers(s, listenfd);
  }

  // Foreign keys.

  lemma RequestKeepsKeys(s: State, f: int, r: Request, users: map<string, User>, messages: seq<StoredMail>)
    requires (Bound(s.users, f) || r.Login?) && NamesKept(s.db.messages, s.users.Keys)
    requires UsersStep(s, f, r, users) && MessagesStep(s, f, r, messages)
    requires r.DeleteUser? && users != s.users ==> !HaveOfflineMessage(s.db, r.name)
    ensures NamesKept(messages, users.Keys)
  {
    if r.Login? && messages != s.db.messages {
      var u :| messages == Others(s.db.messages, u);
      OthersAreKept(s.db.messages, u);
      forall i | 0 <= i < |messages| ensures messages[i].mail.sender in users && messages[i].receiver in users {
        assert messages[i] in s.db.messages;
      }
    }
  }

  lemma StepKeepsForeignKeys(s: State, e: Event)
    requires Sound(s) && Enabled(s, e) && ForeignKeys(s.db)
    ensures ForeignKeys(Step(s, e).s.db)
  {
    StepKeepsSound(s, e);
    if e.Packet? && (Bound(s.users, s.slots[e.slot]) || e.request.Login?) {
      var t := Step(s, e).s;
      DispatchUsers(s, s.slots[e.slot], e.request);
      DispatchMessages(s, s.slots[e.slot], e.request);
      RequestKeepsKeys(s, s.slots[e.slot], e.request, t.users, t.db.messages);
      assert NamesKept(t.db.messages, t.users.Keys);
    }
  }

  /** Every stored message's sender and receiver have accounts, over any run. */
  lemma {:induction false} AlwaysForeignKeys(s: State, es: seq<Event>)
    requires Sound(s) && Legal(s, es) && ForeignKeys(s.db)
    ensures ForeignKeys(After(s, es).db)
  {
    if es != [] {
      var front := es[..|es| - 1];
      AlwaysForeignKeys(s, front);
      AlwaysSound(s, front);
      StepKeepsForeignKeys(After(s, front), es[|es| - 1]);
    }
  }

  // States.

  /** The states a handler sets or the state column can hold. */
  predicate Known(st: Status) {
    st.kind in {IDLE, WITH_USER, IN_ROOM} && (st.kind == IDLE ==> st == IDLE_STATE)
  }

  predicate StatesKnown(users: map<string, User>) {
    forall u :: u in users ==> Known(users[u].state)
  }

  lemma BootStatesAreKnown(db: Database)
    ensures StatesKnown(MapUser(db))
  {
    forall u | u in db.users ensures Known(UserOf(db.users[u]).state) {
      TextRoundTrip(ReadColumn(db.users[u].column));
    }
  }

  lemma EvolveKeepsKnown(s: State, e: Event, after: map<string, User>)
    requires Enabled(s, e) && StatesKnown(s.users) && UsersEvolve(s, e, after)
    ensures StatesKnown(after)
  {
    if e.Restart? { BootStatesAreKnown(s.db); }
  }

  lemma {:induction false} StatesStayKnown(s: State, es: seq<Event>)
    requires Legal(s, es) && StatesKnown(s.users)
    ensures StatesKnown(After(s, es).users)
  {
    if es != [] {
      var front := es[..|es| - 1];
      StatesStayKnown(s, front);
      StepUsers(After(s, front), es[|es| - 1]);
      EvolveKeepsKnown(After(s, front), es[|es| - 1], After(s, es).users);
    }
  }

  /** Whoever is offline talks to nobody. */
  predicate OfflineIdle(users: map<string, User>) {
    forall u :: u in users && users[u].fd == OFFLINE ==> users[u].state == IDLE_STATE
  }

  /** If the event logs somebody in, it finds that user idle. */
  predicate FindsIdle(s: State, e: Event) {
    (e.Packet? && e.request.Login? && LoginAccepted(s, e.request.name, e.request.password)) ==>
      s.users[e.request.name].state == IDLE_STATE
  }

  ghost predicate LoginsFindIdle(s: State, es: seq<Event>) {
    es == [] || (LoginsFindIdle(s, es[..|es| - 1]) && FindsIdle(After(s, es[..|es| - 1]), es[|es| - 1]))
  }

  predicate NoRestart(es: seq<Event>) {
    forall i :: 0 <= i < |es| ==> !es[i].Restart?
  }

  lemma EvolveKeepsOfflineIdle(s: State, e: Event, after: map<string, User>)
    requires Enabled(s, e) && !e.Restart? && OfflineIdle(s.users) && UsersEvolve(s, e, after)
    ensures OfflineIdle(after)
  {
  }

  /** A close clears the state, so without a restart whoever is offline is idle and every login
      finds an idle user, over any run. */
  lemma {:induction false} OfflineStaysIdle(s: State, es: seq<Event>)
    requires Sound(s) && Legal(s, es) && NoRestart(es) && OfflineIdle(s.users)
    ensures OfflineIdle(After(s, es).users) && LoginsFindIdle(s, es)
  {
    if es != [] {
      var front := es[..|es| - 1];
      OfflineStaysIdle(s, front);
      AlwaysSound(s, front);
      StepUsers(After(s, front), es[|es| - 1]);
      EvolveKeepsOfflineIdle(After(s, front), es[|es| - 1], After(s, es).users);
    }
  }

  /** Nobody online talks to himself. */
  predicate Partnered(users: map<string, User>) {
    forall u :: u in users && users[u].fd > 0 && users[u].state.kind == WITH_USER ==> users[u].state.name != u
  }

  /** Nobody has the empty name, and nobody online talks to it. */
  predicate Named(users: map<string, User>) {
    && "" !in users
    && forall u :: u in users && users[u].fd > 0 && users[u].state.kind == WITH_USER ==> users[u].state.name != ""
  }

  lemma RequestKeepsPartnered(s: State, f: int, r: Request, after: map<string, User>)
    requires (Bound(s.users, f) || r.Login?) && UsersStep(s, f, r, after) && Partnered(s.users)
    requires r.Login? && LoginAccepted(s, r.name, r.password) ==> s.users[r.name].state == IDLE_STATE
    ensures Partnered(after)
  {
  }

  lemma RequestKeepsNamed(s: State, f: int, r: Request, after: map<string, User>)
    requires (Bound(s.users, f) || r.Login?) && UsersStep(s, f, r, after) && Named(s.users)
    requires r.Login? && LoginAccepted(s, r.name, r.password) ==> s.users[r.name].state == IDLE_STATE
    ensures Named(after)
  {
  }

  lemma EvolveKeepsPartners(s: State, e: Event, after: map<string, User>)
    requires UsersMirrored(s.users, s.db.users) && Enabled(s, e) && FindsIdle(s, e) && UsersEvolve(s, e, after)
    ensures Partnered(s.users) ==> Partnered(after)
    ensures Named(s.users) ==> Named(after)
  {
    if e.Packet? && after != s.users {
      if Partnered(s.users) { RequestKeepsPartnered(s, s.slots[e.slot], e.request, after); }
      if Named(s.users) { RequestKeepsNamed(s, s.slots[e.slot], e.request, after); }
    }
  }

  /** While logins find idle users, nobody talks to himself; and without an account with the
      empty name there never is one, nor a talk with it. */
  lemma {:induction false} PartnersAreOthers(s: State, es: seq<Event>)
    requires Sound(s) && Legal(s, es) && LoginsFindIdle(s, es)
    ensures Partnered(s.users) ==> Partnered(After(s, es).users)
    ensures Named(s.users) ==> Named(After(s, es).users)
  {
    if es != [] {
      var front := es[..|es| - 1];
      PartnersAreOthers(s, front);
      AlwaysSound(s, front);
      StepUsers(After(s, front), es[|es| - 1]);
      EvolveKeepsPartners(After(s, front), es[|es| - 1], After(s, es).users);
    }
  }
}
