/** What one request does, another undoes. */
module RoundTrips {
  import opened RoomValues
  import opened Tables
  import opened Chat
  import opened Mirror
  import opened Safety
  import opened Sessions

  /** An entry that is not bound to f does not change who is found on f. */
  lemma SameFinder(users: map<string, User>, after: map<string, User>, f: int)
    requires forall u :: u in users && users[u].fd == f ==> u in after && after[u].fd == f
    requires forall u :: u in after && after[u].fd == f ==> u in users && users[u].fd == f
    ensures Holders(after, f) == Holders(users, f)
    ensures Bound(users, f) ==> First(after, f) == First(users, f)
  {
    assert forall u :: u in Holders(after, f) <==> u in Holders(users, f);
  }

  lemma CreateUserUndone(s: State, t: State, name: string)
    requires ForeignKeys(s.db) && s.users.Keys == s.db.users.Keys && name !in s.users
    requires name in t.users && t.users == s.users[name := t.users[name]]
    requires name in t.db.users && t.db == s.db.(users := s.db.users[name := t.db.users[name]])
    ensures !HaveOfflineMessage(t.db, name)
    ensures t.users - {name} == s.users && Tables.DeleteUser(t.db, name) == s.db
  {
    assert t.db.users - {name} == s.db.users;
  }

  /** Deleting the account just created restores the server and its tables exactly. */
  lemma CreateUserThenDelete(s: State, f: int, name: string, password: string, role: int)
    requires Sound(s) && ForeignKeys(s.db) && f > 0
    requires DoCreateUser(s, f, name, password, role).out == [Write(f, CreateOk)]
    ensures DoDeleteUser(DoCreateUser(s, f, name, password, role).s, f, name) == Answer(s, f, DeleteOk)
  {
    var t := DoCreateUser(s, f, name, password, role).s;
    SameFinder(s.users, t.users, f);
    CreateUserUndone(s, t, name);
    hide DoCreateUser, Sound;
  }

  /** And so for a room. */
  lemma CreateRoomThenDelete(s: State, f: int, room: string, capacity: int)
    requires Sound(s) && f > 0
    requires DoCreateRoom(s, f, room, capacity).out == [Write(f, CreateOk)]
    ensures DoDeleteRoom(DoCreateRoom(s, f, room, capacity).s, f, room) == Answer(s, f, DeleteOk)
  {
    var t := DoCreateRoom(s, f, room, capacity).s;
    assert t.rooms - {room} == s.rooms;
    assert t.db.rooms - {room} == s.db.rooms;
  }

  lemma {:induction false} RemoveFirstOfAdded(xs: seq<int>, f: int)
    requires f !in xs
    ensures RemoveFirst(xs + [f], f) == xs
  {
    assert (xs + [f])[..|xs|] == xs;
    RemoveFirstAt(xs + [f], f, |xs|);
  }

  /** The user found on f, with an empty state column: all that a joined and left room or a
      started and ended talk may leave behind. */
  ghost function Settled(s: State, f: int): State
    requires Bound(s.users, f)
  {
    s.(db := ClearState(s.db, First(s.users, f)))
  }

  lemma JoinUndone(s: State, t: State, f: int, room: string)
    requires f > 0 && Bound(s.users, f) && s.users[First(s.users, f)].state == IDLE_STATE
    requires room != "" && room in s.rooms && f !in s.rooms[room].members
    requires Bound(t.users, f) && First(t.users, f) == First(s.users, f)
    requires var u, st := First(s.users, f), Status(IN_ROOM, room);
      t == s.(users := PutState(s.users, u, st),
              rooms := s.rooms[room := s.rooms[room].(members := s.rooms[room].members + [f])],
              db := SetState(ClearState(s.db, u), u, st))
    ensures DoTerminate(t, f).s == Settled(s, f)
  {
    RemoveFirstOfAdded(s.rooms[room].members, f);
    var after := DoTerminate(t, f).s;
    assert after.users == s.users;
    assert after.rooms == s.rooms;
    assert after.db == Settled(s, f).db;
  }

  /** The empty name means "connected with no one" to the handler. */
  lemma EmptyNameStays(s: State, t: State, f: int)
    requires Bound(s.users, f) && s.users[First(s.users, f)].state == IDLE_STATE
    requires Bound(t.users, f) && First(t.users, f) == First(s.users, f)
    requires t.users[First(s.users, f)].state != IDLE_STATE && t.users[First(s.users, f)].state.name == ""
    ensures DoTerminate(t, f).s != Settled(s, f)
  {
    assert DoTerminate(t, f).s.users[First(s.users, f)].state != s.users[First(s.users, f)].state;
  }

  /** Leaving the room an idle user just joined restores everything, the other members' order
      included; unless the room's id is empty, when there is no leaving it. */
  lemma JoinThenTerminate(s: State, f: int, room: string)
    requires Sound(s) && f > 0 && Bound(s.users, f) && s.users[First(s.users, f)].state == IDLE_STATE
    requires DoJoin(s, f, room).out == [Write(f, JoinOk)]
    ensures var t := DoJoin(s, f, room).s;
            Bound(t.users, f) && (DoTerminate(t, f).s == Settled(s, f) <==> room != "")
  {
    var t := DoJoin(s, f, room).s;
    SameFinder(s.users, t.users, f);
    if room != "" { JoinUndone(s, t, f, room); } else { EmptyNameStays(s, t, f); }
    hide DoTerminate, DoJoin;
  }

  lemma WithUndone(s: State, t: State, f: int, name: string)
    requires f > 0 && Bound(s.users, f) && s.users[First(s.users, f)].state == IDLE_STATE && name != ""
    requires Bound(t.users, f) && First(t.users, f) == First(s.users, f)
    requires var u, st := First(s.users, f), Status(WITH_USER, name);
             t == s.(users := PutState(s.users, u, st), db := SetState(s.db, u, st))
    ensures DoTerminate(t, f).s == Settled(s, f)
  {
    var after := DoTerminate(t, f).s;
    assert after.users == s.users;
    assert after.db == Settled(s, f).db;
  }

  /** Ending a talk just started restores everything, with the same exception. */
  lemma WithThenTerminate(s: State, f: int, name: string)
    requires Sound(s) && f > 0 && Bound(s.users, f) && s.users[First(s.users, f)].state == IDLE_STATE
    requires name in s.users && s.users[name].fd != f
    ensures var t := DoWith(s, f, name).s;
            Bound(t.users, f) && (DoTerminate(t, f).s == Settled(s, f) <==> name != "")
  {
    var t := DoWith(s, f, name).s;
    SameFinder(s.users, t.users, f);
    if name != "" { WithUndone(s, t, f, name); } else { EmptyNameStays(s, t, f); }
    hide DoTerminate, DoWith;
  }

  lemma {:induction false} NothingToDelete(messages: seq<StoredMail>, name: string)
    requires Select(messages, name) == []
    ensures Others(messages, name) == messages
  {
    if messages != [] {
      SelectEmptyIff(messages, name);
      NothingToDelete(messages[..|messages| - 1], name);
    }
  }

  /** Leaving the room a login went back to restores that room. */
  lemma HomeRestored(rooms: map<string, RoomValue>, room: string, f: int)
    requires room in rooms && f !in rooms[room].members && AddCode(rooms[room], f) > 0
    ensures var back := rooms[room := Add(rooms[room], f)];
            back[room := Remove(back[room], f)] == rooms
  {
    RemoveFirstOfAdded(rooms[room].members, f);
  }

  lemma CloseAfterRejoin(s: State, t: State, f: int, name: string)
    requires f > 0 && name in s.users && s.users[name].fd == OFFLINE && Bound(t.users, f) && First(t.users, f) == name
    requires t.users == s.users[name := s.users[name].(fd := f)] && t.rooms == Rejoined(s, f, name).rooms
    requires var st := s.users[name].state;
             st.kind == IN_ROOM ==>
               st.name in s.rooms && f !in s.rooms[st.name].members && AddCode(s.rooms[st.name], f) > 0
    ensures Disconnect(t, f).s ==
      t.(users := PutState(s.users, name, IDLE_STATE), rooms := s.rooms, db := ClearState(t.db, name))
  {
    var st := s.users[name].state;
    assert t.users[name := t.users[name].(state := IDLE_STATE, fd := OFFLINE)] == PutState(s.users, name, IDLE_STATE);
    if st.kind == IN_ROOM { HomeRestored(s.rooms, st.name, f); }
  }

  /** Closing the connection right after a login restores everything but the mail delivered, the
      order of the members of the room it went back to included; the user is left idle. */
  lemma LoginThenClose(s: State, f: int, name: string, password: string)
    requires Sound(s) && InSession(s) && f > 0
    requires RequestGuarded(s, f, Login(name, password)) && LoginAccepted(s, name, password)
    ensures Disconnect(DoLogin(s, f, name, password).s, f).s
         == s.(users := PutState(s.users, name, IDLE_STATE), db := ClearState(DeleteMessages(s.db, name), name))
  {
    HomeIsNotRefused(s, f, name);
    LoginShape(s, f, name, password);
    UnboundMeansAbsent(s.users, f);
    StrangerInNoRoom(s, f);
    CloseAfterRejoin(s, DoLogin(s, f, name, password).s, f, name);
    if StoredFor(s.db, name) == [] { NothingToDelete(s.db.messages, name); }
    hide DoLogin, Disconnect;
  }

  /** A password set before a restart, and no other, opens the account after it. */
  lemma PasswordsSurviveRestart(s: State, listenfd: int, name: string, password: string)
    requires Sound(s)
    ensures LoginAccepted(Boot(s.db, listenfd), name, password)
       <==> name in s.users && s.users[name].password == password
  {
    RestartRecovers(s, listenfd);
  }

  /** Every start from tables is a start of a run: maps and tables agree, nobody is online and
      every room is empty. Everybody is idle exactly when the state column is empty throughout. */
  lemma FreshStart(db: Database, listenfd: int)
    requires listenfd >= 0
    ensures Sound(Boot(db, listenfd)) && NobodyOnline(Boot(db, listenfd)) && StatesKnown(Boot(db, listenfd).users)
    ensures OfflineIdle(Boot(db, listenfd).users)
       <==> forall u :: u in db.users ==> ReadColumn(db.users[u].column) == ""
  {
    BootIsSound(db, listenfd);
    BootStatesAreKnown(db);
    forall u | u in db.users
      ensures Boot(db, listenfd).users[u].state == IDLE_STATE <==> ReadColumn(db.users[u].column) == ""
    {
      TextRoundTrip(ReadColumn(db.users[u].column));
    }
  }
}
