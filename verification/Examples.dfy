/** Runs from tables that show what the conditions in the theorems are for. */
module Examples {
  import opened RoomValues
  import opened Tables
  import opened Chat
  import opened Mirror
  import opened Safety
  import opened Sessions
  import opened Wire
  import opened Clients
  import opened Delivery
  import opened SessionTheorems

  /** A run with one more event. */
  lemma Extend(s: State, es: seq<Event>, e: Event, f: int)
    ensures var t := After(s, es);
      && After(s, es + [e]) == Step(t, e).s
      && (Disciplined(s, es + [e]) <==>
            && Disciplined(s, es) && Enabled(t, e)
            && (e.Packet? ==> Polite(ViewOf(s, es, t.slots[e.slot]), e.request)))
      && ViewOf(s, es + [e], f) ==
           (if e == Accept(f) then FRESH_VIEW else ReceiveAll(ViewOf(s, es, f), To(Step(t, e).out, f)))
  {
    hide Step, Enabled, Polite, ReceiveAll, To;
    assert (es + [e])[..|es + [e]| - 1] == es;
  }

  // An empty text loses a store.

  lemma ExampleStore(messages: seq<StoredMail>)
    requires messages == [StoredMail("a", Mail("b", "", 0)), StoredMail("a", Mail("b", "hi", 1))]
    ensures var mails := Select(messages, "a");
            mails == [Mail("b", "", 0), Mail("b", "hi", 1)] && Chats(mails) == [Chat(mails[0]), Chat(mails[1])]
  {
    var first := messages[..1];
    SelectSaved([], messages[0], "a");
    assert first == [] + [messages[0]];
    SelectSaved(first, messages[1], "a");
    assert messages == first + [messages[1]];
    ChatsConcat([Mail("b", "", 0)], [Mail("b", "hi", 1)]);
    assert forall m :: Chats([m]) == [Chat(m)];
  }

  /** The server is just up: no connection yet. */
  predicate JustBooted(s: State, listenfd: int) {
    Sound(s) && NobodyOnline(s) && s.slots == [listenfd] + seq(POLL_SIZE - 1, _ => -1) && s.maxi == 0
  }

  lemma FirstConnection(s: State, pre: seq<Event>, listenfd: int, f: int)
    requires Disciplined(s, pre) && JustBooted(After(s, pre), listenfd) && f > 0 && f != listenfd
    ensures var t, es := After(s, pre), pre + [Accept(f)];
      && Disciplined(s, es) && After(s, es) == t.(slots := t.slots[1 := f], maxi := 1) && ViewOf(s, es, f) == FRESH_VIEW
  {
    hide After, Disciplined, ViewOf, Sound;
    var t := After(s, pre);
    Extend(s, pre, Accept(f), f);
    assert t.slots[1] == -1;
    assert forall i :: 0 <= i < |t.slots| ==> t.slots[i] != f;
    assert Enabled(t, Accept(f));
    assert FreeSlot(t.slots, 1) == 1;
  }

  lemma ExampleLogin(s: State, first: seq<Event>, es: seq<Event>)
    requires Sound(s) && NobodyOnline(s) && Disciplined(s, first) && first == [Accept(5)]
    requires es == first + [Packet(1, Login("a", "p"))]
    requires After(s, first) == s.(slots := s.slots[1 := 5], maxi := 1)
    requires "a" in s.users && s.users["a"].password == "p" && s.users["a"].state == IDLE_STATE
    requires var mails := StoredFor(s.db, "a"); mails != [] && mails[0].text == ""
    ensures Disciplined(s, es) && ReceivedOver(s, es, "a") == [] && Held(After(s, es), "a") == []
  {
    assert es[..|es| - 1] == first && first[..|first| - 1] == [] && LoginsFindIdle(s, []);
    assert FindsIdle(s, Accept(5)) && LoginsFindIdle(s, first);
    assert ViewOf(s, first, 5) == FRESH_VIEW;
    assert Disciplined(s, es);
    PoliteRunsAreGuarded(s, first);
    AlwaysInSession(s, first);
    LastStepIsGuarded(s, es, false);
    NeverHeldOnline(s, first);
    EmptyTextLosesStore(After(s, first), es[1], "a");
    assert ReceivedOver(s, first, "a") == [] by { assert !Online(After(s, first).users, "a"); }
  }

  /** The smallest such run: b has left a an empty text and "hi"; a connects, logs in, and gets
      neither. */
  lemma EmptyTextExample(db: Database, es: seq<Event>)
    requires db.users == map["a" := Row("p", None, ORDINARY), "b" := Row("p", None, ORDINARY)] && db.rooms == map[]
    requires db.messages == [StoredMail("a", Mail("b", "", 0)), StoredMail("a", Mail("b", "hi", 1))]
    requires es == [Accept(5), Packet(1, Login("a", "p"))]
    ensures var s := Boot(db, 3);
      && Sound(s) && NobodyOnline(s) && Disciplined(s, es)
      && Held(s, "a") == [Chat(Mail("b", "", 0)), Chat(Mail("b", "hi", 1))]
      && ReceivedOver(s, es, "a") == [] && Held(After(s, es), "a") == []
  {
    var s := Boot(db, 3);
    BootIsSound(db, 3);
    ExampleStore(db.messages);
    assert NobodyOnline(s);
    FirstConnection(s, [], 3, 5);
    assert [] + [Accept(5)] == [Accept(5)];
    assert es == [Accept(5)] + [Packet(1, Login("a", "p"))];
    ExampleLogin(s, [Accept(5)], es);
  }

  // Runs that start with a login.

  lemma LoginStep(t: State, slot: nat, name: string, password: string)
    requires slot < |t.slots|
    ensures Step(t, Packet(slot, Login(name, password))) == DoLogin(t, t.slots[slot], name, password)
  {
    hide DoLogin;
  }

  lemma LoginEffect(t: State, f: int, name: string, password: string)
    requires FdsSound(t.users) && InSession(t) && f > 0 && !Bound(t.users, f)
    requires LoginAccepted(t, name, password) && HomeReady(t, name)
    ensures var after := DoLogin(t, f, name, password).s;
      && after.users == t.users[name := t.users[name].(fd := f)] && after.rooms == Rejoined(t, f, name).rooms
      && after.slots == t.slots && after.maxi == t.maxi && Holders(after.users, f) == {name}
  {
    HomeIsNotRefused(t, f, name);
    LoginShape(t, f, name, password);
    UnboundMeansAbsent(t.users, f);
    assert forall u :: u in Holders(DoLogin(t, f, name, password).s.users, f) <==> u == name;
  }

  /** The first client connects and logs in: what it is told, and where the server stands. */
  lemma FirstLogin(s: State, pre: seq<Event>, listenfd: int, f: int, name: string, password: string)
    returns (es: seq<Event>)
    requires Disciplined(s, pre) && JustBooted(After(s, pre), listenfd) && f > 0 && f != listenfd
    requires LoginAccepted(After(s, pre), name, password) && HomeReady(After(s, pre), name)
    ensures es == pre + [Accept(f), Packet(1, Login(name, password))]
    ensures Disciplined(s, es)
    ensures var up, t, v := After(s, pre), After(s, es), ViewOf(s, es, f);
      && t.users == up.users[name := up.users[name].(fd := f)]
      && t.rooms == Rejoined(up, f, name).rooms && t.slots == up.slots[1 := f] && t.maxi == 1
      && Holders(t.users, f) == {name} && First(t.users, f) == name
      && !v.withUser && !v.inRoom
  {
    hide After, Disciplined, ViewOf, DoLogin, Step;
    FirstConnection(s, pre, listenfd, f);
    var front := pre + [Accept(f)];
    var t, e := After(s, front), Packet(1, Login(name, password));
    NobodyIsInSession(t);
    assert Holders(t.users, f) == {};
    LoginEffect(t, f, name, password);
    LoginTellsNoTalk(t, f, name, password, FRESH_VIEW);
    Extend(s, front, e, f);
    es := front + [e];
    LoginStep(t, 1, name, password);
    assert First(After(s, es).users, f) in {name};
  }

  lemma FirstLoginOfAll(s: State, listenfd: int, f: int, name: string, password: string) returns (es: seq<Event>)
    requires JustBooted(s, listenfd) && f > 0 && f != listenfd
    requires LoginAccepted(s, name, password) && s.users[name].state == IDLE_STATE
    ensures es == [Accept(f), Packet(1, Login(name, password))]
    ensures Disciplined(s, es)
    ensures var t, v := After(s, es), ViewOf(s, es, f);
      && t.users == s.users[name := s.users[name].(fd := f)]
      && t.rooms == s.rooms && t.slots == s.slots[1 := f] && t.maxi == 1
      && Holders(t.users, f) == {name} && First(t.users, f) == name
      && !v.withUser && !v.inRoom
  {
    assert Disciplined(s, []) && After(s, []) == s;
    hide After, Disciplined, ViewOf;
    es := FirstLogin(s, [], listenfd, f, name, password);
  }

  // After a restart a user can sit in two rooms.

  lemma JoinStep(t: State, slot: nat, room: string)
    requires slot < |t.slots| && Bound(t.users, t.slots[slot])
    ensures Step(t, Packet(slot, Join(room))) == DoJoin(t, t.slots[slot], room)
  {
    hide DoJoin;
  }

  lemma SecondRoom(t: State, f: int, a: string, other: string)
    requires Bound(t.users, f) && First(t.users, f) == a && Holders(t.users, f) == {a}
    requires other in t.rooms && AddCode(t.rooms[other], f) > 0
    ensures var after := DoJoin(t, f, other).s;
      && after.users == t.users[a := t.users[a].(state := Status(IN_ROOM, other))]
      && after.rooms == t.rooms[other := Add(t.rooms[other], f)]
      && after.slots == t.slots && after.maxi == t.maxi && Holders(after.users, f) == {a}
  {
    var after := DoJoin(t, f, other).s;
    assert forall u :: u in Holders(after.users, f) <==> u in Holders(t.users, f);
  }

  lemma GhostMember(t: State, f: int, a: string, room: string, other: string)
    requires Bound(t.users, f) && Holders(t.users, f) == {a} && First(t.users, f) == a && f > 0
    requires t.users[a].state == Status(IN_ROOM, other) && room in t.rooms && room != other
    requires f in t.rooms[room].members
    ensures var after := Disconnect(t, f).s;
      && !Bound(after.users, f) && room in after.rooms && f in after.rooms[room].members
      && after.slots == t.slots && after.maxi == t.maxi
  {
    SwitchOffUsers(t, f);
    var after := Disconnect(t, f).s;
    assert forall u :: u in t.users && u != a ==> u !in Holders(t.users, f);
    assert Holders(after.users, f) == {};
  }

  lemma FreedSlot(t: State, f: int)
    requires Sound(t) && t.slots[1] == f > 0 && Disconnect(t, f).s.slots == t.slots
    ensures Enabled(Step(t, Hangup(1)).s, Accept(f))
  {
    var after := Step(t, Hangup(1)).s;
    assert after.slots == t.slots[1 := -1] && after.slots[1] < 0;
    assert forall i :: 0 <= i < |after.slots| ==> after.slots[i] != f;
  }

  predicate SitsIn(t: State, f: int, room: string) {
    room in t.rooms && f in t.rooms[room].members
  }

  lemma CloseAndReuse(s: State, es: seq<Event>, f: int, a: string, room: string, other: string)
    requires Sound(s) && Disciplined(s, es) && f > 0
    requires var t := After(s, es);
      && t.maxi == 1 && |t.slots| == POLL_SIZE && t.slots[1] == f
      && Bound(t.users, f) && Holders(t.users, f) == {a} && First(t.users, f) == a
      && t.users[a].state == Status(IN_ROOM, other) && room != other && SitsIn(t, f, room)
    ensures var all := es + [Hangup(1)] + [Accept(f)];
            var t := After(s, all);
      && Disciplined(s, all)
      && !Bound(t.users, f) && Open(t.slots, t.maxi, f) && SitsIn(t, f, room)
  {
    hide After, Disciplined, ViewOf;
    var t := After(s, es);
    Extend(s, es, Hangup(1), f);
    GhostMember(t, f, a, room, other);
    var es4 := es + [Hangup(1)];
    DisciplinedIsLegal(s, es4);
    AlwaysSound(s, es);
    AlwaysSound(s, es4);
    Extend(s, es4, Accept(f), f);
    FreedSlot(t, f);
    AcceptOpens(After(s, es4), f);
  }

  /** A user whose state names a room with a place, and another room with a place. */
  predicate Returning(s: State, a: string, password: string, room: string, other: string) {
    && LoginAccepted(s, a, password) && s.users[a].state == Status(IN_ROOM, room) && HomeReady(s, a)
    && other in s.rooms && other != room && s.rooms[other].capacity > 0
  }

  lemma HomeRooms(s: State, f: int, a: string, password: string, room: string, other: string)
    requires NobodyOnline(s) && Returning(s, a, password, room, other)
    ensures LoginAccepted(s, a, password) && HomeReady(s, a) && room != other
    ensures var t := Rejoined(s, f, a);
            SitsIn(t, f, room) && other in t.rooms && AddCode(t.rooms[other], f) > 0
  {
  }

  lemma JoinAfterReturn(s: State, pre: seq<Event>, listenfd: int, f: int, a: string, password: string,
                        room: string, other: string)
    returns (es: seq<Event>)
    requires Disciplined(s, pre) && JustBooted(After(s, pre), listenfd) && f > 0 && f != listenfd
    requires Returning(After(s, pre), a, password, room, other)
    ensures es == pre + [Accept(f), Packet(1, Login(a, password)), Packet(1, Join(other))] && Disciplined(s, es)
    ensures var t := After(s, es);
      && t.maxi == 1 && |t.slots| == POLL_SIZE && t.slots[1] == f
      && Holders(t.users, f) == {a} && First(t.users, f) == a && t.users[a].state == Status(IN_ROOM, other)
      && SitsIn(t, f, room) && SitsIn(t, f, other)
  {
    hide After, Disciplined, ViewOf, Rejoined, DoJoin, AddCode, Returning, LoginAccepted, HomeReady;
    HomeRooms(After(s, pre), f, a, password, room, other);
    var front := FirstLogin(s, pre, listenfd, f, a, password);
    var t, e := After(s, front), Packet(1, Join(other));
    Extend(s, front, e, f);
    es := front + [e];
    SecondRoom(t, f, a, other);
    JoinStep(t, 1, other);
  }

  /** A user whose state names a room logs in after the restart and is put back in it, but the
      client, told nothing, joins another. Both arrays hold its descriptor; when it closes, one of
      them keeps it, and whoever is given that descriptor next hears the room without logging in. */
  lemma GhostMemberRun(s: State, pre: seq<Event>, listenfd: int, f: int, a: string, password: string,
                       room: string, other: string)
    returns (joined: seq<Event>, es: seq<Event>)
    requires Sound(s) && Disciplined(s, pre) && JustBooted(After(s, pre), listenfd) && f > 0 && f != listenfd
    requires Returning(After(s, pre), a, password, room, other)
    ensures joined == pre + [Accept(f), Packet(1, Login(a, password)), Packet(1, Join(other))]
    ensures SitsIn(After(s, joined), f, room) && SitsIn(After(s, joined), f, other)
    ensures es == joined + [Hangup(1)] + [Accept(f)] && Disciplined(s, es)
    ensures var t := After(s, es); !Bound(t.users, f) && Open(t.slots, t.maxi, f) && SitsIn(t, f, room)
  {
    assert other != room;
    hide After, Disciplined, ViewOf, Returning, JustBooted;
    joined := JoinAfterReturn(s, pre, listenfd, f, a, password, room, other);
    CloseAndReuse(s, joined, f, a, room, other);
    es := joined + [Hangup(1)] + [Accept(f)];
  }

  lemma BootIsJustBooted(db: Database, listenfd: int)
    requires listenfd >= 0
    ensures JustBooted(Boot(db, listenfd), listenfd)
  {
    BootIsSound(db, listenfd);
  }

  lemma RecoveredUser(t: State, a: string, listenfd: int)
    requires Sound(t) && a in t.users && Faithful(t.users[a].state)
    ensures var up := Boot(t.db, listenfd); a in up.users && up.users[a] == t.users[a].(fd := OFFLINE)
  {
    RestartRecovers(t, listenfd);
    StateRoundTrip(t.users[a].state);
  }

  lemma RecoveredRoom(t: State, k: string, listenfd: int)
    requires Sound(t) && k in t.rooms
    ensures var up := Boot(t.db, listenfd); k in up.rooms && up.rooms[k] == t.rooms[k].(members := [])
  {
    RestartRecovers(t, listenfd);
  }

  /** A restart with one user in a room: the user comes back offline, in that room by its state. */
  lemma RestartInRoom(s: State, t: State, f: int, a: string, password: string, room: string, other: string,
                      listenfd: int)
    requires Sound(t) && listenfd >= 0 && a in s.users && s.users[a].password == password
    requires room in s.rooms && s.rooms[room].capacity > 0
    requires other in s.rooms && other != room && s.rooms[other].capacity > 0
    requires t.users == s.users[a := s.users[a].(fd := f, state := Status(IN_ROOM, room))]
    requires t.rooms == s.rooms[room := Add(s.rooms[room], f)]
    ensures JustBooted(Boot(t.db, listenfd), listenfd) && Returning(Boot(t.db, listenfd), a, password, room, other)
  {
    hide JustBooted, Sound, Boot;
    BootIsJustBooted(t.db, listenfd);
    assert t.users[a] == s.users[a].(fd := f, state := Status(IN_ROOM, room));
    RecoveredUser(t, a, listenfd);
    RecoveredRoom(t, room, listenfd);
    RecoveredRoom(t, other, listenfd);
  }

  lemma UpdateTwice(users: map<string, User>, a: string, x: User, y: User)
    ensures users[a := x][a := y] == users[a := y]
  {
  }

  lemma JoinFirst(s: State, listenfd: int, f: int, a: string, password: string, room: string) returns (es: seq<Event>)
    requires JustBooted(s, listenfd) && f > 0 && f != listenfd
    requires LoginAccepted(s, a, password) && s.users[a].state == IDLE_STATE
    requires room in s.rooms && s.rooms[room].capacity > 0
    ensures es == [Accept(f), Packet(1, Login(a, password)), Packet(1, Join(room))] && Disciplined(s, es)
    ensures var t := After(s, es);
      && t.users == s.users[a := s.users[a].(fd := f, state := Status(IN_ROOM, room))]
      && t.rooms == s.rooms[room := Add(s.rooms[room], f)]
  {
    assert AddCode(s.rooms[room], f) > 0;
    assert |s.slots| == POLL_SIZE;
    hide After, Disciplined, ViewOf, DoJoin, AddCode, JustBooted, Step;
    var front := FirstLoginOfAll(s, listenfd, f, a, password);
    var t, join := After(s, front), Packet(1, Join(room));
    Extend(s, front, join, f);
    SecondRoom(t, f, a, room);
    JoinStep(t, 1, room);
    UpdateTwice(s.users, a, t.users[a], t.users[a].(state := Status(IN_ROOM, room)));
    es := front + [join];
  }

  lemma RestartStep(t: State, listenfd: int)
    ensures Step(t, Restart(listenfd)) == Effect(Boot(t.db, listenfd), [])
  {
    hide Boot;
  }

  lemma ThenRestart(s: State, es: seq<Event>, listenfd: int)
    requires Sound(s) && Disciplined(s, es) && listenfd >= 0
    ensures Sound(After(s, es))
    ensures Disciplined(s, es + [Restart(listenfd)])
    ensures After(s, es + [Restart(listenfd)]) == Boot(After(s, es).db, listenfd)
  {
    hide After, Disciplined, ViewOf, Sound, Boot, Step;
    DisciplinedIsLegal(s, es);
    AlwaysSound(s, es);
    RestartStep(After(s, es), listenfd);
    Extend(s, es, Restart(listenfd), 0);
  }

  lemma JoinThenRestart(s: State, listenfd: int, f: int, a: string, password: string, room: string, other: string)
    returns (es: seq<Event>)
    requires JustBooted(s, listenfd) && f > 0 && f != listenfd && listenfd >= 0
    requires LoginAccepted(s, a, password) && s.users[a].state == IDLE_STATE
    requires room in s.rooms && s.rooms[room].capacity > 0
    requires other in s.rooms && other != room && s.rooms[other].capacity > 0
    ensures es == [Accept(f), Packet(1, Login(a, password)), Packet(1, Join(room)), Restart(listenfd)]
    ensures Disciplined(s, es) && JustBooted(After(s, es), listenfd)
    ensures Returning(After(s, es), a, password, room, other)
  {
    assert Sound(s) && s.users[a].password == password;
    hide *;
    var joined := JoinFirst(s, listenfd, f, a, password, room);
    ThenRestart(s, joined, listenfd);
    RestartInRoom(s, After(s, joined), f, a, password, room, other, listenfd);
    es := joined + [Restart(listenfd)];
  }

  /** The whole story, from idle tables: a joins R, the server restarts, a logs in and joins Q, the
      connection closes, and its descriptor is handed out again. */
  lemma GhostMemberExample(db: Database) returns (es: seq<Event>)
    requires db.users == map["a" := Row("p", None, ORDINARY)] && db.rooms == map["R" := 2, "Q" := 2]
    ensures es == [Accept(5), Packet(1, Login("a", "p")), Packet(1, Join("R")), Restart(3),
                   Accept(5), Packet(1, Login("a", "p")), Packet(1, Join("Q")), Hangup(1), Accept(5)]
    ensures JustBooted(Boot(db, 3), 3) && OfflineIdle(Boot(db, 3).users) && Disciplined(Boot(db, 3), es)
    ensures var t := After(Boot(db, 3), es);
            !Bound(t.users, 5) && Open(t.slots, t.maxi, 5) && SitsIn(t, 5, "R")
  {
    hide After, Disciplined, ViewOf, Returning;
    var s := Boot(db, 3);
    BootIsSound(db, 3);
    var pre := JoinThenRestart(s, 3, 5, "a", "p", "R", "Q");
    var joined;
    joined, es := GhostMemberRun(s, pre, 3, 5, "a", "p", "R", "Q");
  }

  // A talk with a user whose name looks like a room's.

  lemma CreateEffect(t: State, f: int, a: string, name: string, v: View)
    requires Holders(t.users, f) == {a} && First(t.users, f) == a && f > 0 && a != "" && t.users[a].role == ADMIN
    requires name !in t.users && name != ""
    ensures var after := DoCreateUser(t, f, name, "p", ORDINARY);
      && after.s.users == t.users[name := User("p", ORDINARY, IDLE_STATE, OFFLINE)]
      && after.s.slots == t.slots && after.s.maxi == t.maxi && Holders(after.s.users, f) == {a}
      && ReceiveAll(v, To(after.out, f)) == v
  {
    assert a in Holders(t.users, f);
    var after := DoCreateUser(t, f, name, "p", ORDINARY);
    assert forall u :: u in Holders(after.s.users, f) <==> u in Holders(t.users, f);
  }

  lemma TalkThenRestart(t: State, f: int, a: string, x: string, listenfd: int)
    requires Sound(t) && Holders(t.users, f) == {a} && First(t.users, f) == a && f > 0
    requires ROOM_PREFIX + x in t.users && t.users[ROOM_PREFIX + x].fd == OFFLINE
    ensures var talking := DoWith(t, f, ROOM_PREFIX + x).s;
      && a in talking.users && talking.users[a].state == Status(WITH_USER, ROOM_PREFIX + x)
      && a in Boot(talking.db, listenfd).users
      && Boot(talking.db, listenfd).users[a].state == Status(IN_ROOM, x)
  {
    assert a in Holders(t.users, f);
    var talking := DoWith(t, f, ROOM_PREFIX + x).s;
    WithKeepsSound(t, f, ROOM_PREFIX + x);
    RestartRecovers(talking, listenfd);
    LookalikeComesBackAsRoom(x);
  }

  /** An administrator creates the account "ROOM x" and talks to it; after a restart it is in
      room x, whether or not there is one. */
  lemma LookalikeRun(s: State, listenfd: int, f: int, a: string, password: string, x: string)
    returns (talking: seq<Event>, es: seq<Event>)
    requires JustBooted(s, listenfd) && f > 0 && f != listenfd && a != ""
    requires LoginAccepted(s, a, password) && s.users[a].state == IDLE_STATE && s.users[a].role == ADMIN
    requires ROOM_PREFIX + x !in s.users && listenfd >= 0
    ensures talking == [Accept(f), Packet(1, Login(a, password)),
                        Packet(1, CreateUser(ROOM_PREFIX + x, "p", ORDINARY)), Packet(1, With(ROOM_PREFIX + x))]
    ensures es == talking + [Restart(listenfd)] && Disciplined(s, es)
    ensures a in After(s, talking).users && After(s, talking).users[a].state == Status(WITH_USER, ROOM_PREFIX + x)
    ensures a in After(s, es).users && After(s, es).users[a].state == Status(IN_ROOM, x)
  {
    hide After, Disciplined, ViewOf, DoCreateUser, DoWith, Boot, Sound;
    var name := ROOM_PREFIX + x;
    var es2 := FirstLoginOfAll(s, listenfd, f, a, password);
    var t2, create := After(s, es2), Packet(1, CreateUser(name, "p", ORDINARY));
    CreateEffect(t2, f, a, name, ViewOf(s, es2, f));
    Extend(s, es2, create, f);
    var es3 := es2 + [create];
    assert Step(t2, create) == DoCreateUser(t2, f, name, "p", ORDINARY);
    var t3, talk := After(s, es3), Packet(1, With(name));
    Extend(s, es3, talk, f);
    talking := es3 + [talk];
    assert First(t3.users, f) in {a};
    assert Step(t3, talk) == DoWith(t3, f, name);
    DisciplinedIsLegal(s, es3);
    AlwaysSound(s, es3);
    TalkThenRestart(t3, f, a, x, listenfd);
    Extend(s, talking, Restart(listenfd), f);
    es := talking + [Restart(listenfd)];
  }

  lemma LookalikeExample(db: Database) returns (talking: seq<Event>, es: seq<Event>)
    requires db.users == map["admin" := Row("admin", None, ADMIN)] && db.rooms == map[]
    ensures talking == [Accept(5), Packet(1, Login("admin", "admin")),
                        Packet(1, CreateUser(ROOM_PREFIX + "x", "p", ORDINARY)), Packet(1, With(ROOM_PREFIX + "x"))]
    ensures es == talking + [Restart(3)] && JustBooted(Boot(db, 3), 3) && Disciplined(Boot(db, 3), es)
    ensures var t := After(Boot(db, 3), es); "admin" in t.users && t.users["admin"].state == Status(IN_ROOM, "x")
  {
    BootIsSound(db, 3);
    assert (ROOM_PREFIX + "x")[0] != "admin"[0];
    talking, es := LookalikeRun(Boot(db, 3), 3, 5, "admin", "admin", "x");
  }

  // An administrator's account deleted by another.

  lemma DeleteEffect(t: State, f: int, a: string, b: string)
    requires Holders(t.users, f) == {a} && First(t.users, f) == a && f > 0 && a != "" && t.users[a].role == ADMIN
    requires b in t.users && t.users[b].fd == OFFLINE && t.db.messages == []
    ensures var after := DoDeleteUser(t, f, b);
            after.out == [Write(f, DeleteOk)] && b !in after.s.users && a in after.s.users
  {
    assert a in Holders(t.users, f);
  }

  lemma {:induction false} NoMailAfterLogin(s: State, es: seq<Event>)
    requires Legal(s, es) && s.db.messages == []
    requires forall i :: 0 <= i < |es| ==> es[i].Packet? ==> es[i].request.Login?
    ensures After(s, es).db.messages == []
  {
    if es != [] {
      var front, e := es[..|es| - 1], es[|es| - 1];
      NoMailAfterLogin(s, front);
      if e.Packet? { DispatchMessages(After(s, front), After(s, front).slots[e.slot], e.request); }
    }
  }

  /** The answer says that an administrator's account cannot be deleted only if the account looked
      at has the administrator's role; but the one looked at is not the one to be deleted. */
  lemma AdminDeletedRun(s: State, listenfd: int, f: int, a: string, password: string, b: string)
    returns (front: seq<Event>, e: Event)
    requires JustBooted(s, listenfd) && f > 0 && f != listenfd && a != "" && a != b
    requires LoginAccepted(s, a, password) && s.users[a].state == IDLE_STATE && s.users[a].role == ADMIN
    requires b in s.users && s.users[b].role == ADMIN && s.db.messages == []
    ensures front == [Accept(f), Packet(1, Login(a, password))] && e == Packet(1, DeleteUser(b))
    ensures Disciplined(s, front + [e])
    ensures b in After(s, front).users && After(s, front).users[b].role == ADMIN
    ensures Step(After(s, front), e).out == [Write(f, DeleteOk)] && b !in After(s, front + [e]).users
  {
    hide After, Disciplined, ViewOf, DoDeleteUser, Sound;
    front := FirstLoginOfAll(s, listenfd, f, a, password);
    e := Packet(1, DeleteUser(b));
    DisciplinedIsLegal(s, front);
    NoMailAfterLogin(s, front);
    DeleteEffect(After(s, front), f, a, b);
    Extend(s, front, e, f);
    assert Step(After(s, front), e) == DoDeleteUser(After(s, front), f, b);
  }

  lemma AdminDeletedExample(db: Database) returns (front: seq<Event>, e: Event)
    requires db.users == map["admin" := Row("admin", None, ADMIN), "root" := Row("root", None, ADMIN)]
    requires db.rooms == map[] && db.messages == []
    ensures front == [Accept(5), Packet(1, Login("admin", "admin"))] && e == Packet(1, DeleteUser("root"))
    ensures JustBooted(Boot(db, 3), 3) && Disciplined(Boot(db, 3), front + [e])
    ensures Step(After(Boot(db, 3), front), e).out == [Write(5, DeleteOk)]
    ensures "root" !in After(Boot(db, 3), front + [e]).users
  {
    hide After, Disciplined, Step;
    BootIsSound(db, 3);
    front, e := AdminDeletedRun(Boot(db, 3), 3, 5, "admin", "admin", "root");
  }

  // The user with the empty name.

  lemma TalkToAbsent(t: State, f: int, a: string, v: View)
    requires Holders(t.users, f) == {a} && First(t.users, f) == a && f > 0
    requires "" in t.users && t.users[""].fd == OFFLINE && a != ""
    ensures var after := DoWith(t, f, "");
      && after.s.users == t.users[a := t.users[a].(state := Status(WITH_USER, ""))]
      && after.s.rooms == t.rooms && after.s.slots == t.slots && after.s.maxi == t.maxi
      && !ReceiveAll(v, To(after.out, f)).partnerOnline
  {
    assert a in Holders(t.users, f);
    assert DoWith(t, f, "").out == [Write(f, WithOk(false))];
    assert To([Write(f, WithOk(false))], f) == [WithOk(false)];
    assert ReceiveAll(v, [WithOk(false)]) == Receive(v, WithOk(false));
  }

  /** Nobody is told when it comes online. */
  lemma NamelessLogin(t: State, f: int, g: int, password: string, v: View)
    requires FdsSound(t.users) && InSession(t) && f > 0 && g > 0 && f != g && !Bound(t.users, g)
    requires LoginAccepted(t, "", password) && HomeReady(t, "")
    ensures var after := DoLogin(t, g, "", password);
      && after.s.users == t.users["" := t.users[""].(fd := g)]
      && ReceiveAll(v, To(after.out, f)) == v
  {
    HomeIsNotRefused(t, g, "");
    LoginShape(t, g, "", password);
    var u := t.users[""];
    var after := t.users["" := u.(fd := g)];
    WelcomeTells(v, LoginOk("", password, u.role, u.state.name), Flushed(StoredFor(t.db, "")),
                 NoticesFrom(after, g, true), g, f);
  }

  lemma SecondConnection(t: State, f: int, g: int)
    requires Sound(t) && t.slots[1] == f > 0 && t.slots[2] == -1 && t.maxi == 1 && g > 0 && g !in t.slots
    ensures Enabled(t, Accept(g)) && Step(t, Accept(g)) == Effect(t.(slots := t.slots[2 := g], maxi := 2), [])
  {
    assert FreeSlot(t.slots, 2) == 2;
    assert FreeSlot(t.slots, 1) == 2;
  }

  /** a connects, logs in and starts talking to the absent user with the empty name. */
  lemma TalkToNameless(s: State, listenfd: int, f: int, a: string, password: string) returns (es: seq<Event>)
    requires JustBooted(s, listenfd) && f > 0 && f != listenfd && a != ""
    requires LoginAccepted(s, a, password) && s.users[a].state == IDLE_STATE && "" in s.users
    ensures es == [Accept(f), Packet(1, Login(a, password)), Packet(1, With(""))] && Disciplined(s, es)
    ensures var t := After(s, es);
      && t.users == s.users[a := s.users[a].(fd := f, state := Status(WITH_USER, ""))]
      && t.rooms == s.rooms && t.slots == s.slots[1 := f] && t.maxi == 1 && !ViewOf(s, es, f).partnerOnline
  {
    hide After, Disciplined, ViewOf, DoWith, Sound;
    var es2 := FirstLoginOfAll(s, listenfd, f, a, password);
    var t2, talk := After(s, es2), Packet(1, With(""));
    TalkToAbsent(t2, f, a, ViewOf(s, es2, f));
    Extend(s, es2, talk, f);
    es := es2 + [talk];
    assert Step(t2, talk) == DoWith(t2, f, "");
    assert t2.users[a] == s.users[a].(fd := f);
  }

  lemma ConnectSecond(s: State, es: seq<Event>, f: int, g: int)
    requires Sound(s) && Disciplined(s, es)
    requires var t := After(s, es); |t.slots| == POLL_SIZE && t.slots[1] == f > 0 && t.slots[2] == -1 && t.maxi == 1
    requires g > 0 && g != f && g !in After(s, es).slots
    ensures var all := es + [Accept(g)];
            var t, after := After(s, es), After(s, all);
      && Disciplined(s, all) && after == t.(slots := t.slots[2 := g], maxi := 2)
      && ViewOf(s, all, g) == FRESH_VIEW && ViewOf(s, all, f) == ViewOf(s, es, f)
  {
    DisciplinedIsLegal(s, es);
    AlwaysSound(s, es);
    SecondConnection(After(s, es), f, g);
    Extend(s, es, Accept(g), f);
    Extend(s, es, Accept(g), g);
    assert To([], f) == [] && ReceiveAll(ViewOf(s, es, f), []) == ViewOf(s, es, f);
  }

  lemma TwoTalkers(s: State, t: State, f: int, g: int, a: string, other: string)
    requires NobodyOnline(s) && t.rooms == s.rooms
    requires a in s.users && t.users == s.users[a := s.users[a].(fd := f, state := Status(WITH_USER, ""))]
    requires f != g && g > 0 && f > 0 && |t.slots| == POLL_SIZE && t.slots[1] == f && t.maxi == 2
    requires LoginAccepted(s, "", other) && s.users[""].state == IDLE_STATE && a != ""
    ensures FdsSound(t.users) && InSession(t) && !Bound(t.users, g)
    ensures LoginAccepted(t, "", other) && HomeReady(t, "") && t.users[""].fd == OFFLINE
  {
    assert Open(t.slots, t.maxi, f);
    assert Holders(t.users, g) == {};
  }

  lemma TalkAndConnect(s: State, listenfd: int, f: int, g: int, a: string, password: string) returns (es: seq<Event>)
    requires JustBooted(s, listenfd) && f > 0 && g > 0 && f != g && f != listenfd && g != listenfd && a != ""
    requires LoginAccepted(s, a, password) && s.users[a].state == IDLE_STATE && "" in s.users
    ensures es == [Accept(f), Packet(1, Login(a, password)), Packet(1, With("")), Accept(g)] && Disciplined(s, es)
    ensures var t := After(s, es);
      && t.users == s.users[a := s.users[a].(fd := f, state := Status(WITH_USER, ""))] && t.rooms == s.rooms
      && |t.slots| == POLL_SIZE && t.slots[1] == f && t.slots[2] == g && t.maxi == 2
      && !ViewOf(s, es, f).partnerOnline && ViewOf(s, es, g) == FRESH_VIEW
  {
    hide After, Disciplined, ViewOf, Sound;
    var es3 := TalkToNameless(s, listenfd, f, a, password);
    assert forall i :: 0 <= i < |s.slots| ==> s.slots[i] != g;
    ConnectSecond(s, es3, f, g);
    es := es3 + [Accept(g)];
  }

  lemma NamelessComesOnline(s: State, es: seq<Event>, f: int, g: int, a: string, password: string)
    requires Disciplined(s, es) && a != "" && f > 0 && g > 0 && f != g && ViewOf(s, es, g) == FRESH_VIEW
    requires var t := After(s, es);
      && FdsSound(t.users) && InSession(t) && !Bound(t.users, g) && LoginAccepted(t, "", password) && HomeReady(t, "")
      && |t.slots| == POLL_SIZE && t.slots[2] == g && t.maxi == 2
      && a in t.users && t.users[a].fd == f
    ensures var all := es + [Packet(2, Login("", password))];
            var before, after := After(s, es), After(s, all);
      && Disciplined(s, all) && Online(after.users, "")
      && a in after.users && after.users[a] == before.users[a]
      && ViewOf(s, all, f) == ViewOf(s, es, f)
  {
    hide After, Disciplined, ViewOf, DoLogin, InSession, Step;
    var t := After(s, es);
    NamelessLogin(t, f, g, password, ViewOf(s, es, f));
    LoginStep(t, 2, "", password);
    Extend(s, es, Packet(2, Login("", password)), f);
  }

  /** The user with the empty name logs in, and the client talking to it is not told. */
  lemma NamelessRun(s: State, listenfd: int, f: int, g: int, a: string, password: string, other: string)
    returns (es: seq<Event>)
    requires JustBooted(s, listenfd) && f > 0 && g > 0 && f != g && f != listenfd && g != listenfd && a != ""
    requires LoginAccepted(s, a, password) && s.users[a].state == IDLE_STATE
    requires LoginAccepted(s, "", other) && s.users[""].state == IDLE_STATE
    ensures es == [Accept(f), Packet(1, Login(a, password)), Packet(1, With("")),
                   Accept(g), Packet(2, Login("", other))] && Disciplined(s, es)
    ensures var t := After(s, es);
      && Online(t.users, a) && t.users[a].fd == f && t.users[a].state == Status(WITH_USER, "")
      && Online(t.users, "") && !ViewOf(s, es, f).partnerOnline
  {
    assert NobodyOnline(s) && FdsSound(s.users);
    hide After, Disciplined, ViewOf, JustBooted, InSession, NobodyOnline, FdsSound, LoginAccepted, HomeReady;
    var front := TalkAndConnect(s, listenfd, f, g, a, password);
    var t := After(s, front);
    TwoTalkers(s, t, f, g, a, other);
    NamelessComesOnline(s, front, f, g, a, other);
    es := front + [Packet(2, Login("", other))];
  }

  lemma NamelessExample(db: Database) returns (es: seq<Event>)
    requires db.users == map["a" := Row("p", None, ORDINARY), "" := Row("q", None, ORDINARY)] && db.rooms == map[]
    ensures es == [Accept(5), Packet(1, Login("a", "p")), Packet(1, With("")),
                   Accept(6), Packet(2, Login("", "q"))]
    ensures JustBooted(Boot(db, 3), 3) && Disciplined(Boot(db, 3), es)
    ensures var t := After(Boot(db, 3), es);
      && Online(t.users, "a") && t.users["a"].fd == 5 && t.users["a"].state == Status(WITH_USER, "")
      && Online(t.users, "") && !ViewOf(Boot(db, 3), es, 5).partnerOnline
  {
    hide After, Disciplined, ViewOf;
    BootIsSound(db, 3);
    es := NamelessRun(Boot(db, 3), 3, 5, 6, "a", "p", "q");
  }

  // A login can go unanswered.

  lemma NoPlaceLeft(t: State, g: int, b: string, password: string, room: string)
    requires LoginAccepted(t, b, password) && t.users[b].state == Status(2, room) && room in t.rooms
    requires |t.rooms[room].members| >= t.rooms[room].capacity
    ensures DoLogin(t, g, b, password) == Effect(t.(users := t.users[b := t.users[b].(fd := g)]), [])
  {
  }

  lemma OnePlace(s: State, f: int, a: string, room: string)
    requires NobodyOnline(s) && a in s.users && s.users[a].state == Status(2, room)
    requires room in s.rooms && s.rooms[room].capacity == 1
    ensures HomeReady(s, a)
    ensures Rejoined(s, f, a).rooms == s.rooms[room := s.rooms[room].(members := [f])]
  {
    assert s.rooms[room].members == [] && [] + [f] == [f];
  }

  lemma TakePlaceAndConnect(s: State, listenfd: int, f: int, g: int, a: string, p: string, room: string)
    returns (es: seq<Event>)
    requires JustBooted(s, listenfd) && f > 0 && g > 0 && f != g && f != listenfd && g != listenfd
    requires LoginAccepted(s, a, p) && s.users[a].state == Status(2, room)
    requires room in s.rooms && s.rooms[room].capacity == 1
    ensures es == [Accept(f), Packet(1, Login(a, p)), Accept(g)] && Disciplined(s, es)
    ensures var t := After(s, es);
      && t.users == s.users[a := s.users[a].(fd := f)]
      && t.rooms == s.rooms[room := s.rooms[room].(members := [f])]
      && |t.slots| == POLL_SIZE && t.slots[2] == g && t.maxi == 2 && ViewOf(s, es, g) == FRESH_VIEW
  {
    assert Disciplined(s, []) && After(s, []) == s;
    OnePlace(s, f, a, room);
    assert forall i :: 0 <= i < |s.slots| ==> s.slots[i] != g;
    hide After, Disciplined, ViewOf, Sound, HomeReady, Rejoined, LoginAccepted;
    var es2 := FirstLogin(s, [], listenfd, f, a, p);
    ConnectSecond(s, es2, f, g);
    es := es2 + [Accept(g)];
  }

  /** Two users' states name the same room, which has one place since it was resized while nobody was
      in it. The first to log in takes the place. The second is bound to its descriptor, in a room
      whose members it is not among, and its client hears nothing at all. */
  lemma SilentLoginRun(s: State, listenfd: int, f: int, g: int,
                       a: string, p: string, b: string, q: string, room: string)
    returns (front: seq<Event>, e: Event)
    requires JustBooted(s, listenfd) && f > 0 && g > 0 && f != g && f != listenfd && g != listenfd && a != b
    requires LoginAccepted(s, a, p) && s.users[a].state == Status(2, room)
    requires LoginAccepted(s, b, q) && s.users[b].state == Status(2, room)
    requires room in s.rooms && s.rooms[room].capacity == 1
    ensures front == [Accept(f), Packet(1, Login(a, p)), Accept(g)] && e == Packet(2, Login(b, q))
    ensures Disciplined(s, front + [e])
    ensures Step(After(s, front), e).out == []
    ensures var t := After(s, front + [e]);
      b in t.users && t.users[b].fd == g && t.users[b].state == Status(2, room) && MembersOf(t.rooms, room) == [f]
  {
    hide After, Disciplined, ViewOf, JustBooted, DoLogin, Step;
    front := TakePlaceAndConnect(s, listenfd, f, g, a, p, room);
    e := Packet(2, Login(b, q));
    NoPlaceLeft(After(s, front), g, b, q, room);
    LoginStep(After(s, front), 2, b, q);
    Extend(s, front, e, g);
  }

  lemma SilentLoginExample(db: Database) returns (front: seq<Event>, e: Event)
    requires db.users == map["a" := Row("p", Some("ROOM R"), 2), "b" := Row("q", Some("ROOM R"), 2)]
    requires db.rooms == map["R" := 1]
    ensures front == [Accept(5), Packet(1, Login("a", "p")), Accept(6)] && e == Packet(2, Login("b", "q"))
    ensures JustBooted(Boot(db, 3), 3) && Disciplined(Boot(db, 3), front + [e])
    ensures Step(After(Boot(db, 3), front), e).out == []
    ensures var t := After(Boot(db, 3), front + [e]);
      "b" in t.users && t.users["b"].fd == 6 && MembersOf(t.rooms, "R") == [5]
  {
    hide After, Disciplined, Step;
    BootIsSound(db, 3);
    assert "ROOM R"[5..] == "R";
    front, e := SilentLoginRun(Boot(db, 3), 3, 5, 6, "a", "p", "b", "q", "R");
  }
}
