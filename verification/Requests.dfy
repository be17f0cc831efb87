/** Regime A (any packets): what the answer to a request tells its sender. */
module Requests {
  import opened NameOrder
  import opened RoomValues
  import opened Tables
  import opened Chat
  import opened Mirror

  /** Everything but messages, room notices and presence notices. */
  predicate IsAnswer(r: Reply) { !r.Chat? && !r.Left? && !r.Party? }

  function Answers(out: seq<Write>): seq<Write> {
    if out == [] then []
    else if IsAnswer(out[0].reply) then [out[0]] + Answers(out[1..])
    else Answers(out[1..])
  }

  lemma {:induction false} AnswersConcat(a: seq<Write>, b: seq<Write>)
    ensures Answers(a + b) == Answers(a) + Answers(b)
  {
    if a == [] {
      assert a + b == b;
    } else {
      assert (a + b)[1..] == a[1..] + b;
      AnswersConcat(a[1..], b);
    }
  }

  lemma {:induction false} NoAnswersIn(out: seq<Write>)
    requires forall i :: 0 <= i < |out| ==> !IsAnswer(out[i].reply)
    ensures Answers(out) == []
  {
    if out != [] { NoAnswersIn(out[1..]); }
  }

  lemma {:induction false} BroadcastReplies(ms: seq<int>, r: Reply)
    ensures forall i :: 0 <= i < |Broadcast(ms, r)| ==> Broadcast(ms, r)[i].reply == r
  {
    if ms != [] { BroadcastReplies(ms[1..], r); }
  }

  lemma {:induction false} ChatsReplies(f: int, mails: seq<Mail>)
    ensures forall i :: 0 <= i < |WriteAll(f, Chats(mails))| ==> WriteAll(f, Chats(mails))[i].reply.Chat?
  {
    if mails != [] { ChatsReplies(f, mails[1..]); }
  }

  lemma {:induction false} NoticesReplies(users: map<string, User>, rest: set<string>, about: string, online: bool)
    requires rest <= users.Keys
    ensures forall i :: 0 <= i < |Notices(users, rest, about, online)| ==>
              Notices(users, rest, about, online)[i].reply.Party?
    decreases |rest|
  {
    if rest != {} {
      var u := Least(rest);
      NoticesReplies(users, rest - {u}, about, online);
      var later := Notices(users, rest - {u}, about, online);
      assert Notices(users, rest, about, online)
          == if Watches(users[u], about) then [Write(users[u].fd, Party(online))] + later else later;
    }
  }

  /** When the request of user u, which came on descriptor f, is granted. A login is nobody's. */
  predicate Permitted(s: State, f: int, u: string, r: Request)
    requires u in s.users || r.Login?
  {
    match r
    case Login(name, password) =>
      && name in s.users && s.users[name].fd <= 0 && s.users[name].password == password
      && (var st := s.users[name].state;
          st.kind == 2 && st.name in s.rooms ==>
            |s.rooms[st.name].members| < s.rooms[st.name].capacity && f !in s.rooms[st.name].members)
    case With(name) => name in s.users && s.users[name].fd != f
    case Join(room) =>
      room in s.rooms && |s.rooms[room].members| < s.rooms[room].capacity && f !in s.rooms[room].members
    case Terminate => s.users[u].state.name != ""
    case CreateUser(name, password, _) =>
      u != "" && s.users[u].role == 1 && name !in s.users && name != "" && password != ""
    case ModifyUser(name, password, _) =>
      u != "" && s.users[u].role == 1 && name in s.users && s.users[name].fd <= 0 && password != ""
    case DeleteUser(name) =>
      && u != "" && s.users[u].role == 1 && name in s.users && s.users[name].fd <= 0
      && (forall m :: m in s.db.messages ==> m.mail.sender != name && m.receiver != name)
    case CreateRoom(room, capacity) =>
      u != "" && s.users[u].role == 1 && room !in s.rooms && room != "" && capacity >= 0
    case ModifyRoom(room, capacity) =>
      s.users[u].role == 1 && room in s.rooms && s.rooms[room].members == [] && capacity > 0
    case DeleteRoom(room) => s.users[u].role == 1 && room in s.rooms && s.rooms[room].members == []
    case _ => true
  }

  /** The user's state and its column. */
  function WithState(s: State, u: string, st: Status, column: Option<string>): State
    requires u in s.users && u in s.db.users
  {
    s.(users := s.users[u := s.users[u].(state := st)],
       db := s.db.(users := s.db.users[u := s.db.users[u].(column := column)]))
  }

  /** The state once that request was granted: exactly this changed, in the maps and the tables. */
  ghost predicate Done(s: State, f: int, u: string, r: Request, t: State)
    requires s.users.Keys == s.db.users.Keys && (u in s.users || r.Login?)
  {
    match r
    case Login(name, _) => name in s.users && t.users == s.users[name := s.users[name].(fd := f)]
    case With(name) => t == WithState(s, u, Status(1, name), Some(name))
    case Join(room) =>
      room in s.rooms && t == WithState(s, u, Status(2, room), Some("ROOM " + room)).(
        rooms := s.rooms[room := s.rooms[room].(members := s.rooms[room].members + [f])])
    case Terminate =>
      var st := s.users[u].state;
      && t == WithState(s, u, Status(0, ""), None).(rooms := t.rooms)
      && (if st.kind == 2 && st.name in s.rooms then
            && st.name in t.rooms && TakenOut(s.rooms[st.name].members, f, t.rooms[st.name].members)
            && t.rooms == s.rooms[st.name := s.rooms[st.name].(members := t.rooms[st.name].members)]
          else t.rooms == s.rooms)
    case CreateUser(name, password, role) =>
      var granted := if role == 1 then 1 else 2;
      && t == s.(users := s.users[name := User(password, granted, Status(0, ""), -1)],
                 db := s.db.(users := s.db.users[name := Row(password, None, granted)]))
      && (forall p :: LoginAccepted(t, name, p) <==> p == password)
    case ModifyUser(name, password, role) =>
      var granted := if role == 1 then 1 else 2;
      && name in s.users
      && t == s.(users := s.users[name := s.users[name].(password := password, role := granted)],
                 db := s.db.(users := s.db.users[name := s.db.users[name].(password := password, role := granted)]))
      && (forall p :: LoginAccepted(t, name, p) <==> p == password)
    case DeleteUser(name) =>
      && t == s.(users := s.users - {name}, db := s.db.(users := s.db.users - {name}))
      && (forall p :: !LoginAccepted(t, name, p))
    case CreateRoom(room, capacity) =>
      t == s.(rooms := s.rooms[room := RoomValue(room, capacity, [])],
              db := s.db.(rooms := s.db.rooms[room := capacity]))
    case ModifyRoom(room, capacity) =>
      t == s.(rooms := s.rooms[room := RoomValue(room, capacity, [])],
              db := s.db.(rooms := s.db.rooms[room := capacity]))
    case DeleteRoom(room) => t == s.(rooms := s.rooms - {room}, db := s.db.(rooms := s.db.rooms - {room}))
    case _ => t == s
  }

  predicate Grants(s: State, r: Request, a: Reply) {
    match r
    case Login(name, password) =>
      name in s.users && a == LoginOk(name, password, s.users[name].role, s.users[name].state.name)
    case With(name) => a == WithOk(name in s.users && s.users[name].fd > 0)
    case Join(_) => a == JoinOk
    case Terminate => a == Terminated
    case CreateUser(_, _, _) => a == CreateOk
    case ModifyUser(_, _, _) => a == ModifyOk
    case DeleteUser(_) => a == DeleteOk
    case CreateRoom(_, _) => a == CreateOk
    case ModifyRoom(_, _) => a == ModifyOk
    case DeleteRoom(_) => a == DeleteOk
    case Listing => a == List
    case _ => false
  }

  function Refusal(r: Request): Reply {
    match r
    case Login(_, _) => LoginFail
    case With(_) => WithFail
    case Join(_) => JoinFail
    case Terminate => TerminateFail
    case CreateUser(_, _, _) => CreateFail
    case ModifyUser(_, _, _) => ModifyFail
    case DeleteUser(_) => DeleteFail
    case CreateRoom(_, _) => CreateFail
    case ModifyRoom(_, _) => ModifyFail
    case DeleteRoom(_) => DeleteFail
    case _ => SendFail
  }

  /** The requests whose sender waits for an answer. A user whose room is full, or holds the
      descriptor already, is bound to it by an accepted login without a word. */
  predicate Answered(s: State, f: int, r: Request) {
    && !r.Send? && !r.Other?
    && (r.Login? && r.name in s.users && s.users[r.name].fd <= 0 && s.users[r.name].password == r.password ==>
          var st := s.users[r.name].state;
          st.kind == 2 && st.name in s.rooms ==>
            |s.rooms[st.name].members| < s.rooms[st.name].capacity && f !in s.rooms[st.name].members)
  }

  /** A granted request: done, and answered to its sender exactly once. Nothing else is written,
      but for the mail and the notices that go with a login and the notices of a leave. */
  ghost predicate GrantedOnce(s: State, f: int, u: string, r: Request, t: Effect)
    requires s.users.Keys == s.db.users.Keys && (u in s.users || r.Login?)
  {
    && |Answers(t.out)| == 1 && Answers(t.out)[0].fd == f && Grants(s, r, Answers(t.out)[0].reply)
    && (!r.Login? && !r.Terminate? ==> |t.out| == 1)
    && Done(s, f, u, r, t.s)
  }

  ghost predicate Honest(s: State, f: int, u: string, r: Request, t: Effect)
    requires s.users.Keys == s.db.users.Keys && (u in s.users || r.Login?)
  {
    if Permitted(s, f, u, r) then GrantedOnce(s, f, u, r, t) else t == Effect(s, [Write(f, Refusal(r))])
  }

  lemma OneWrite(f: int, a: Reply)
    requires IsAnswer(a)
    ensures Answers([Write(f, a)]) == [Write(f, a)]
  {
  }

  lemma WelcomeAnswersOnce(s: State, f: int, hello: Reply)
    requires Bound(s.users, f) && hello.LoginOk?
    ensures Answers(Welcome(s, f, hello).out) == [Write(f, hello)]
  {
    var u := First(s.users, f);
    var mails := WriteAll(f, Chats(Flushed(StoredFor(s.db, u))));
    var news := NoticesFrom(s.users, f, true);
    ChatsReplies(f, Flushed(StoredFor(s.db, u)));
    NoAnswersIn(mails);
    if u != "" { NoticesReplies(s.users, s.users.Keys, u, true); }
    NoAnswersIn(news);
    AnswersConcat([Write(f, hello)] + mails, news);
    AnswersConcat([Write(f, hello)], mails);
    OneWrite(f, hello);
  }

  lemma LoginIsHonest(s: State, f: int, u: string, name: string, password: string)
    requires Sound(s) && Answered(s, f, Login(name, password))
    ensures Honest(s, f, u, Login(name, password), DoLogin(s, f, name, password))
  {
    if LoginAccepted(s, name, password) {
      var x, back := s.users[name], Rejoined(s, f, name);
      assert name in Holders(back.users, f);
      WelcomeAnswersOnce(back, f, LoginOk(name, x.password, x.role, x.state.name));
    }
  }

  lemma TerminateIsHonest(s: State, f: int)
    requires Sound(s) && Bound(s.users, f)
    ensures Honest(s, f, First(s.users, f), Terminate, DoTerminate(s, f))
  {
    var u := First(s.users, f);
    var st := s.users[u].state;
    if st.name != "" {
      OneWrite(f, Terminated);
      if st.kind == IN_ROOM && st.name in s.rooms {
        var left := RemoveFirst(s.rooms[st.name].members, f);
        RemoveFirstTakesOut(s.rooms[st.name].members, f);
        BroadcastReplies(left, Left(u));
        NoAnswersIn(Broadcast(left, Left(u)));
        AnswersConcat(Broadcast(left, Left(u)), [Write(f, Terminated)]);
      } else {
        assert [] + [Write(f, Terminated)] == [Write(f, Terminated)];
      }
    }
  }

  lemma WithIsHonest(s: State, f: int, name: string)
    requires Sound(s) && Bound(s.users, f)
    ensures Honest(s, f, First(s.users, f), With(name), DoWith(s, f, name))
  {
    OneWrite(f, WithOk(Online(s.users, name)));
  }

  lemma JoinIsHonest(s: State, f: int, room: string)
    requires Sound(s) && Bound(s.users, f)
    ensures Honest(s, f, First(s.users, f), Join(room), DoJoin(s, f, room))
  {
    OneWrite(f, JoinOk);
  }

  lemma ListingIsHonest(s: State, f: int)
    requires Sound(s) && Bound(s.users, f)
    ensures Honest(s, f, First(s.users, f), Listing, Answer(s, f, List))
  {
    OneWrite(f, List);
  }

  lemma AccountsAreHonest(s: State, f: int, r: Request)
    requires Sound(s) && Bound(s.users, f) && (r.CreateUser? || r.ModifyUser?)
    ensures Honest(s, f, First(s.users, f), r, Dispatch(s, f, r))
  {
    forall a | IsAnswer(a) ensures Answers([Write(f, a)]) == [Write(f, a)] { OneWrite(f, a); }
  }

  lemma DeletionIsHonest(s: State, f: int, name: string)
    requires Sound(s) && Bound(s.users, f)
    ensures Honest(s, f, First(s.users, f), DeleteUser(name), DoDeleteUser(s, f, name))
  {
    OneWrite(f, DeleteOk);
    assert forall i :: 0 <= i < |s.db.messages| ==> s.db.messages[i] in s.db.messages;
  }

  lemma RoomsAreHonest(s: State, f: int, r: Request)
    requires Sound(s) && Bound(s.users, f) && (r.CreateRoom? || r.ModifyRoom? || r.DeleteRoom?)
    ensures Honest(s, f, First(s.users, f), r, Dispatch(s, f, r))
  {
    forall a | IsAnswer(a) ensures Answers([Write(f, a)]) == [Write(f, a)] { OneWrite(f, a); }
  }

  /** Every request that waits for an answer gets exactly one, on the same connection: the
      grant, exactly when the rules allow it to the user it comes from, the first bound to the
      descriptor, and then the thing is done and nothing else; or the refusal, and then nothing
      has changed and nobody else hears of it. */
  lemma AnswersAreHonest(s: State, f: int, u: string, r: Request)
    requires Sound(s) && (FirstOn(s.users, f, u) || r.Login?) && Answered(s, f, r)
    ensures Honest(s, f, u, r, Dispatch(s, f, r))
  {
    FirstIs(s.users, f, u);
    assert !r.Send? && !r.Other?;
    hide Honest, FirstOn, Answered, DoLogin, DoTerminate, DoWith, DoJoin;
    hide DoCreateUser, DoModifyUser, DoDeleteUser, DoCreateRoom, DoModifyRoom, DoDeleteRoom;
    if r.Login? { LoginIsHonest(s, f, u, r.name, r.password); }
    else if r.Terminate? { TerminateIsHonest(s, f); }
    else if r.DeleteUser? { DeletionIsHonest(s, f, r.name); }
    else if r.CreateUser? || r.ModifyUser? { AccountsAreHonest(s, f, r); }
    else if r.CreateRoom? || r.ModifyRoom? || r.DeleteRoom? { RoomsAreHonest(s, f, r); }
    else if r.With? { WithIsHonest(s, f, r.name); }
    else if r.Join? { JoinIsHonest(s, f, r.room); }
    else { ListingIsHonest(s, f); }
  }

  /** The other requests get no answer at all; one of no known type does nothing. */
  lemma NoAnswerOtherwise(s: State, f: int, r: Request)
    requires ((exists u :: u in s.users && s.users[u].fd == f) || r.Login?) && !Answered(s, f, r)
    ensures Answers(Dispatch(s, f, r).out) == []
    ensures r.Other? ==> Dispatch(s, f, r) == Effect(s, [])
  {
    BoundIs(s.users, f);
    if r.Send? {
      var u := Last(s.users, f);
      var st := s.users[u].state;
      if st.name in s.rooms {
        BroadcastReplies(s.rooms[st.name].members, Chat(Mail(u, r.text, r.time)));
      }
      NoAnswersIn(DoSend(s, f, r.text, r.time).out);
    }
  }

  // The statements behind the requests.

  /** The calls of stored procedures. */
  datatype Statement =
    | InsertUserRow(name: string, password: string, role: int)
    | ModifyUserRow(name: string, password: string, role: int)
    | DeleteUserRow(name: string)
    | SetStateOf(name: string, st: Status)
    | ClearStateOf(name: string)
    | InsertRoomRow(room: string, capacity: int)
    | ModifyRoomRow(room: string, capacity: int)
    | DeleteRoomRow(room: string)
    | SaveMail(receiver: string, mail: Mail)
    | DeleteMailOf(name: string)

  function Perform(db: Database, q: Statement): Database {
    match q
    case InsertUserRow(name, password, role) => InsertUser(db, name, password, role)
    case ModifyUserRow(name, password, role) => Tables.ModifyUser(db, name, password, role)
    case DeleteUserRow(name) => Tables.DeleteUser(db, name)
    case SetStateOf(name, st) => SetState(db, name, st)
    case ClearStateOf(name) => ClearState(db, name)
    case InsertRoomRow(room, capacity) => InsertRoom(db, room, capacity)
    case ModifyRoomRow(room, capacity) => Tables.ModifyRoom(db, room, capacity)
    case DeleteRoomRow(room) => Tables.DeleteRoom(db, room)
    case SaveMail(receiver, mail) => SaveMessage(db, receiver, mail)
    case DeleteMailOf(name) => DeleteMessages(db, name)
  }

  function PerformAll(db: Database, qs: seq<Statement>): Database
    decreases |qs|
  {
    if qs == [] then db else PerformAll(Perform(db, qs[0]), qs[1..])
  }

  /** The primary keys of users and rooms, the roles a user may refer to, and the foreign keys of
      the message table. */
  predicate SchemaAllows(db: Database, q: Statement) {
    match q
    case InsertUserRow(name, _, role) => name !in db.users && role in {ADMIN, ORDINARY}
    case ModifyUserRow(_, _, role) => role in {ADMIN, ORDINARY}
    case DeleteUserRow(name) => forall m :: m in db.messages ==> m.mail.sender != name && m.receiver != name
    case InsertRoomRow(room, _) => room !in db.rooms
    case SaveMail(receiver, mail) => mail.sender in db.users && receiver in db.users
    case _ => true
  }

  predicate SchemaAllowsAll(db: Database, qs: seq<Statement>)
    decreases |qs|
  {
    qs == [] || (SchemaAllows(db, qs[0]) && SchemaAllowsAll(Perform(db, qs[0]), qs[1..]))
  }

  /** Whose request it is. */
  ghost function Acting(s: State, f: int): string {
    if Bound(s.users, f) then First(s.users, f) else ""
  }

  ghost function SendStatements(s: State, f: int, text: string, time: int): seq<Statement>
    requires Bound(s.users, f)
  {
    var u := Last(s.users, f);
    var st := s.users[u].state;
    if st.kind == WITH_USER && st.name in s.users && s.users[st.name].fd < 0
    then [SaveMail(st.name, Mail(u, text, time))] else []
  }

  /** What a handler sends, in order. */
  ghost function Statements(s: State, f: int, r: Request): seq<Statement>
    requires Bound(s.users, f) || r.Login?
  {
    if !Permitted(s, f, Acting(s, f), r) then []
    else
      match r
      case Login(name, _) =>
        assert name in Holders(Rejoined(s, f, name).users, f);
        var u := First(Rejoined(s, f, name).users, f);
        if StoredFor(s.db, u) == [] then [] else [DeleteMailOf(u)]
      case With(name) => [SetStateOf(First(s.users, f), Status(WITH_USER, name))]
      case Join(room) => [ClearStateOf(First(s.users, f)), SetStateOf(First(s.users, f), Status(IN_ROOM, room))]
      case Terminate => [ClearStateOf(First(s.users, f))]
      case Send(text, time) => SendStatements(s, f, text, time)
      case CreateUser(name, password, role) => [InsertUserRow(name, password, Granted(role))]
      case ModifyUser(name, password, role) => [ModifyUserRow(name, password, Granted(role))]
      case DeleteUser(name) => [DeleteUserRow(name)]
      case CreateRoom(room, capacity) => [InsertRoomRow(room, capacity)]
      case ModifyRoom(room, capacity) => [ModifyRoomRow(room, capacity)]
      case DeleteRoom(room) => [DeleteRoomRow(room)]
      case _ => []
  }

  /** The statements say what becomes of the tables, and the schema allows each in its turn. */
  ghost predicate Lawful(s: State, qs: seq<Statement>, after: Database) {
    PerformAll(s.db, qs) == after && SchemaAllowsAll(s.db, qs)
  }

  lemma OneStatement(s: State, q: Statement)
    requires SchemaAllows(s.db, q)
    ensures Lawful(s, [q], Perform(s.db, q))
  {
    assert [q][1..] == [];
  }

  lemma TwoStatements(s: State, q: Statement, p: Statement)
    requires SchemaAllows(s.db, q) && SchemaAllows(Perform(s.db, q), p)
    ensures Lawful(s, [q, p], Perform(Perform(s.db, q), p))
  {
    assert [q, p][1..] == [p];
    OneStatement(s.(db := Perform(s.db, q)), p);
  }

  lemma AnythingIsLawful(s: State)
    ensures Lawful(s, [], s.db)
  {
  }

  lemma AccountsAreLawful(s: State, f: int, r: Request)
    requires Sound(s) && Bound(s.users, f) && (r.CreateUser? || r.ModifyUser? || r.DeleteUser?)
    ensures Lawful(s, Statements(s, f, r), Dispatch(s, f, r).s.db)
  {
    hide Lawful;
    assert Lawful(s, [], s.db) by { AnythingIsLawful(s); }
    assert forall i :: 0 <= i < |s.db.messages| ==> s.db.messages[i] in s.db.messages;
    if Permitted(s, f, Acting(s, f), r) { OneStatement(s, Statements(s, f, r)[0]); }
  }

  lemma RoomsAreLawful(s: State, f: int, r: Request)
    requires Sound(s) && Bound(s.users, f) && (r.CreateRoom? || r.ModifyRoom? || r.DeleteRoom?)
    ensures Lawful(s, Statements(s, f, r), Dispatch(s, f, r).s.db)
  {
    hide Lawful;
    AnythingIsLawful(s);
    if Permitted(s, f, Acting(s, f), r) { OneStatement(s, Statements(s, f, r)[0]); }
  }

  lemma TalkIsLawful(s: State, f: int, r: Request)
    requires Bound(s.users, f) && (r.With? || r.Join? || r.Terminate?)
    ensures Lawful(s, Statements(s, f, r), Dispatch(s, f, r).s.db)
  {
    hide Lawful;
    AnythingIsLawful(s);
    if Permitted(s, f, Acting(s, f), r) {
      var qs := Statements(s, f, r);
      if r.Join? { TwoStatements(s, qs[0], qs[1]); } else { OneStatement(s, qs[0]); }
    }
  }

  lemma SendIsLawful(s: State, f: int, text: string, time: int)
    requires Sound(s) && Bound(s.users, f)
    ensures Lawful(s, SendStatements(s, f, text, time), DoSend(s, f, text, time).s.db)
  {
    hide Lawful;
    AnythingIsLawful(s);
    var qs := SendStatements(s, f, text, time);
    if qs != [] { OneStatement(s, qs[0]); }
  }

  lemma LoginIsLawful(s: State, f: int, name: string, password: string)
    ensures Lawful(s, Statements(s, f, Login(name, password)), DoLogin(s, f, name, password).s.db)
  {
    hide Lawful;
    AnythingIsLawful(s);
    var qs := Statements(s, f, Login(name, password));
    if qs != [] { OneStatement(s, qs[0]); }
  }

  /** The statements a request sends are what changes the tables, and none of them can violate a
      primary or foreign key, whether or not it changes anything. */
  lemma SchemaAccepts(s: State, f: int, r: Request)
    requires Sound(s) && f > 0 && (Bound(s.users, f) || r.Login?)
    ensures PerformAll(s.db, Statements(s, f, r)) == Dispatch(s, f, r).s.db
    ensures SchemaAllowsAll(s.db, Statements(s, f, r))
  {
    if r.Login? { LoginIsLawful(s, f, r.name, r.password); }
    else if r.Send? { SendIsLawful(s, f, r.text, r.time); }
    else if r.With? || r.Join? || r.Terminate? { TalkIsLawful(s, f, r); }
    else if r.CreateUser? || r.ModifyUser? || r.DeleteUser? { AccountsAreLawful(s, f, r); }
    else if r.CreateRoom? || r.ModifyRoom? || r.DeleteRoom? { RoomsAreLawful(s, f, r); }
    else { AnythingIsLawful(s); }
    hide DoLogin, DoSend, DoTerminate, DoWith, DoJoin, PerformAll, SchemaAllowsAll;
    hide DoCreateUser, DoModifyUser, DoDeleteUser, DoCreateRoom, DoModifyRoom, DoDeleteRoom;
  }

  /** A close sends one, about the user it switches off. */
  lemma SchemaAcceptsClose(s: State, f: int)
    requires Bound(s.users, f)
    ensures Disconnect(s, f).s.db == Perform(s.db, ClearStateOf(First(s.users, f)))
    ensures SchemaAllows(s.db, ClearStateOf(First(s.users, f)))
  {
  }
}
