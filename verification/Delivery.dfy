/** Regime B: every chat message and every room notice is delivered or held exactly once. */
module Delivery {
  import opened RoomValues
  import opened Tables
  import opened Chat
  import opened Mirror
  import opened Safety
  import opened Sessions
  import opened Wire

  predicate IsPost(r: Reply) { r.Chat? || r.Left? }

  /** The chat messages and room notices among what was written. */
  function Posts(rs: seq<Reply>): seq<Reply> {
    if rs == [] then []
    else if IsPost(rs[0]) then [rs[0]] + Posts(rs[1..])
    else Posts(rs[1..])
  }

  lemma {:induction false} PostsConcat(a: seq<Reply>, b: seq<Reply>)
    ensures Posts(a + b) == Posts(a) + Posts(b)
  {
    if a == [] { assert a + b == b; }
    else { assert (a + b)[1..] == a[1..] + b; PostsConcat(a[1..], b); }
  }

  lemma {:induction false} PostsOfChats(mails: seq<Mail>)
    ensures Posts(Chats(mails)) == Chats(mails)
  {
    if mails != [] { PostsOfChats(mails[1..]); }
  }

  lemma {:induction false} ChatsConcat(a: seq<Mail>, b: seq<Mail>)
    ensures Chats(a + b) == Chats(a) + Chats(b)
  {
    if a == [] { assert a + b == b; }
    else { assert (a + b)[1..] == a[1..] + b; ChatsConcat(a[1..], b); }
  }

  // What is due, what arrives, what is held, what is dropped.

  /** What a message from u owes v. */
  function DueOfSend(s: State, u: string, mail: Mail, v: string): seq<Reply>
    requires u in s.users
  {
    var st := s.users[u].state;
    if && v in s.users
       && (st == Status(WITH_USER, v) || (st.kind == IN_ROOM && Online(s.users, v) && s.users[v].state == st))
    then [Chat(mail)] else []
  }

  /** What u's leaving a room owes v. */
  function DueOfLeaving(s: State, u: string, v: string): seq<Reply>
    requires u in s.users
  {
    var st := s.users[u].state;
    if v != u && st.kind == IN_ROOM && Online(s.users, v) && s.users[v].state == st then [Left(u)] else []
  }

  /** A user connected with no one leaves nothing. */
  function DueOfTerminate(s: State, u: string, v: string): seq<Reply>
    requires u in s.users
  {
    if s.users[u].state.name == "" then [] else DueOfLeaving(s, u, v)
  }

  /** What one event owes user v, said of users and their states alone: no descriptors, no
      member lists, no tables. */
  ghost function Due(s: State, e: Event, v: string): seq<Reply>
    requires Enabled(s, e)
  {
    if !(e.Packet? || e.Hangup?) || !Bound(s.users, s.slots[e.slot]) then []
    else
      var u := First(s.users, s.slots[e.slot]);
      if e.Hangup? then DueOfLeaving(s, u, v)
      else
        match e.request
        case Send(text, time) => DueOfSend(s, u, Mail(u, text, time), v)
        case Terminate => DueOfTerminate(s, u, v)
        case _ => []
  }

  /** What one step puts on the descriptor user v is on. */
  function Arrived(t: Effect, v: string): seq<Reply> {
    if Online(t.s.users, v) then Posts(To(t.out, t.s.users[v].fd)) else []
  }

  function Held(s: State, v: string): seq<Reply> {
    Chats(StoredFor(s.db, v))
  }

  /** The event is v's successful login. */
  predicate LogsIn(s: State, e: Event, v: string) {
    && e.Packet? && e.request.Login? && e.request.name == v
    && LoginAccepted(s, v, e.request.password)
  }

  /** What v's login flush never gets to: everything from the first empty text on. */
  function Dropped(s: State, e: Event, v: string): seq<Reply> {
    var mails := StoredFor(s.db, v);
    if LogsIn(s, e, v) then Chats(mails[|Flushed(mails)|..]) else []
  }

  predicate AllTexts(mails: seq<Mail>) {
    forall i :: 0 <= i < |mails| ==> mails[i].text != ""
  }

  /** The flush delivers exactly the longest prefix without an empty text. */
  lemma {:induction false} FlushedIsLongestPrefix(mails: seq<Mail>)
    ensures Flushed(mails) <= mails && AllTexts(Flushed(mails))
    ensures |Flushed(mails)| < |mails| ==> mails[|Flushed(mails)|].text == ""
    ensures Flushed(mails) == mails <==> AllTexts(mails)
  {
    if mails != [] && mails[0].text != "" {
      FlushedIsLongestPrefix(mails[1..]);
      var rest := Flushed(mails[1..]);
      assert forall i :: 1 <= i < |mails| ==> mails[i] == mails[1..][i - 1];
      assert forall i :: 1 <= i < |Flushed(mails)| ==> Flushed(mails)[i] == rest[i - 1];
      assert AllTexts(mails) <==> AllTexts(mails[1..]) by {
        if AllTexts(mails) { assert forall i :: 0 <= i < |mails| - 1 ==> mails[1..][i] == mails[i + 1]; }
      }
    }
  }

  /** Nothing is stored for a user who is online. */
  ghost predicate NoneHeldOnline(s: State) {
    forall v :: Online(s.users, v) ==> StoredFor(s.db, v) == []
  }

  // The law for one step, handler by handler.

  predicate Balances(s: State, due: seq<Reply>, t: Effect, dropped: seq<Reply>, v: string) {
    Held(s, v) + due == Arrived(t, v) + dropped + Held(t.s, v)
  }

  /** The members of a room are exactly the descriptors of the users in it. */
  lemma MemberIffInRoom(s: State, k: string, v: string)
    requires InSession(s) && k in s.rooms && Online(s.users, v)
    ensures s.users[v].fd in s.rooms[k].members <==> s.users[v].state == Status(IN_ROOM, k)
  {
    assert Placed(s.users[v], s.rooms);
    if s.users[v].fd in s.rooms[k].members { assert Seated(s.users, s.users[v].fd, k); }
  }

  /** A step that leaves the message table alone and nobody newly online balances when what
      arrives is what is due. */
  lemma QuietBalances(s: State, due: seq<Reply>, t: Effect, v: string)
    requires NoneHeldOnline(s) && t.s.db.messages == s.db.messages
    requires forall w :: Online(t.s.users, w) ==> Online(s.users, w)
    requires Arrived(t, v) == due
    ensures Balances(s, due, t, [], v) && NoneHeldOnline(t.s)
  {
    if Online(s.users, v) { assert Held(s, v) == []; }
  }

  /** A message saved for an absent user joins that user's store and nobody else's. */
  lemma SaveBalances(s: State, name: string, mail: Mail, v: string)
    requires NoneHeldOnline(s) && !Online(s.users, name)
    ensures var t := Effect(s.(db := SaveMessage(s.db, name, mail)), []);
            Balances(s, if v == name then [Chat(mail)] else [], t, [], v) && NoneHeldOnline(t.s)
  {
    var added := StoredMail(name, mail);
    SelectSaved(s.db.messages, added, v);
    ChatsConcat(StoredFor(s.db, v), [mail]);
    assert Chats([mail]) == [Chat(mail)];
    forall w | Online(s.users, w) ensures Select(s.db.messages + [added], w) == [] {
      SelectSaved(s.db.messages, added, w);
    }
  }

  /** A message written to one user arrives there and nowhere else. */
  lemma WriteBalances(s: State, name: string, r: Reply, v: string)
    requires Unshared(s.users) && NoneHeldOnline(s) && Online(s.users, name) && IsPost(r)
    ensures Balances(s, if v == name then [r] else [], Effect(s, [Write(s.users[name].fd, r)]), [], v)
  {
    if Online(s.users, v) {
      assert To([Write(s.users[name].fd, r)], s.users[v].fd) == if v == name then [r] else [];
      assert Held(s, v) == [] && Posts([r]) == [r];
    }
  }

  /** A message to a room arrives once at everyone in the room and nowhere else. */
  lemma BroadcastBalances(s: State, room: string, r: Reply, v: string)
    requires Sound(s) && InSession(s) && NoneHeldOnline(s) && room in s.rooms && IsPost(r)
    ensures var due := if Online(s.users, v) && s.users[v].state == Status(IN_ROOM, room) then [r] else [];
            Balances(s, due, Effect(s, Broadcast(s.rooms[room].members, r)), [], v)
  {
    if Online(s.users, v) {
      ToBroadcast(s.rooms[room].members, r, s.users[v].fd);
      MemberIffInRoom(s, room, v);
      assert Held(s, v) == [] && Posts([r]) == [r];
    }
  }

  lemma SendToUserBalances(s: State, mail: Mail, name: string, v: string)
    requires FdsSound(s.users) && Unshared(s.users) && NoneHeldOnline(s) && name in s.users
    ensures var t := if s.users[name].fd < 0 then Effect(s.(db := SaveMessage(s.db, name, mail)), [])
                     else Effect(s, [Write(s.users[name].fd, Chat(mail))]);
            Balances(s, if v == name then [Chat(mail)] else [], t, [], v) && NoneHeldOnline(t.s)
  {
    if s.users[name].fd > 0 { WriteBalances(s, name, Chat(mail), v); } else { SaveBalances(s, name, mail, v); }
  }

  lemma SendBalances(s: State, f: int, text: string, time: int, v: string)
    requires Sound(s) && InSession(s) && NoneHeldOnline(s) && f > 0 && Bound(s.users, f)
    ensures var t := DoSend(s, f, text, time);
            Balances(s, DueOfSend(s, First(s.users, f), Mail(First(s.users, f), text, time), v), t, [], v)
            && NoneHeldOnline(t.s)
  {
    var u := First(s.users, f);
    OwnerIs(s.users, u);
    var st, mail := s.users[u].state, Mail(u, text, time);
    assert Placed(s.users[u], s.rooms);
    if st.kind == WITH_USER && st.name in s.users {
      SendToUserBalances(s, mail, st.name, v);
    } else if st.kind == IN_ROOM {
      BroadcastBalances(s, st.name, Chat(mail), v);
    } else {
      QuietBalances(s, [], Effect(s, []), v);
    }
    hide Balances, NoneHeldOnline;
  }

  lemma LeaveWrites(s: State, f: int, room: string, who: string, g: int)
    requires RoomsSound(s.rooms) && room in s.rooms
    ensures To(LeaveRoom(s, f, room, who).out, g)
         == if g != f && g in s.rooms[room].members then [Left(who)] else []
  {
    var ms := s.rooms[room].members;
    RemoveFirstIsWithout(ms, f);
    ToBroadcast(RemoveFirst(ms, f), Left(who), g);
  }

  /** The notice of a leaving arrives once at everyone who stays, and not at the leaver. */
  lemma LeaveReaches(s: State, u: string, v: string)
    requires Sound(s) && InSession(s) && Online(s.users, u) && Online(s.users, v) && s.users[u].state.kind == IN_ROOM
    ensures Posts(To(LeaveRoom(s, s.users[u].fd, s.users[u].state.name, u).out, s.users[v].fd)) == DueOfLeaving(s, u, v)
  {
    assert Placed(s.users[u], s.rooms);
    LeaveWrites(s, s.users[u].fd, s.users[u].state.name, u, s.users[v].fd);
    MemberIffInRoom(s, s.users[u].state.name, v);
    assert Posts([Left(u)]) == [Left(u)] && Posts([]) == [];
    assert v != u ==> s.users[v].fd != s.users[u].fd;
    hide LeaveRoom, To;
  }

  lemma AnswerIsNoPost(f: int, r: Reply, g: int)
    requires !IsPost(r)
    ensures Posts(To([Write(f, r)], g)) == []
  {
    assert To([Write(f, r)], g) == if f == g then [r] else [];
    assert Posts([r]) == [];
  }

  lemma PostsOfTwo(a: seq<Write>, b: seq<Write>, f: int)
    ensures Posts(To(a + b, f)) == Posts(To(a, f)) + Posts(To(b, f))
  {
    ToConcat(a, b, f);
    PostsConcat(To(a, f), To(b, f));
  }

  lemma PostsOfThree(a: seq<Write>, b: seq<Write>, c: seq<Write>, f: int)
    ensures Posts(To(a + b + c, f)) == Posts(To(a, f)) + Posts(To(b, f)) + Posts(To(c, f))
  {
    ToConcat(a + b, c, f);
    ToConcat(a, b, f);
    PostsConcat(To(a, f) + To(b, f), To(c, f));
    PostsConcat(To(a, f), To(b, f));
  }

  lemma NoticesAreNoPosts(users: map<string, User>, about: string, online: bool, f: int)
    requires Unshared(users) && f > 0
    ensures Posts(To(Notices(users, users.Keys, about, online), f)) == []
  {
    ToNotices(users, users.Keys, about, online, f);
    assert Posts([Party(online)]) == [];
  }

  lemma TerminateArrives(s: State, f: int, v: string)
    requires Sound(s) && InSession(s) && f > 0 && Bound(s.users, f) && Online(s.users, v)
    ensures Posts(To(DoTerminate(s, f).out, s.users[v].fd)) == DueOfTerminate(s, First(s.users, f), v)
  {
    var u := First(s.users, f);
    var st := s.users[u].state;
    var g := s.users[v].fd;
    AnswerIsNoPost(f, TerminateFail, g);
    AnswerIsNoPost(f, Terminated, g);
    if st.name != "" {
      var gone := if st.kind == IN_ROOM then LeaveRoom(s, f, st.name, u).out else [];
      PostsOfTwo(gone, [Write(f, Terminated)], g);
      if st.kind == IN_ROOM { LeaveReaches(s, u, v); }
    }
    hide LeaveRoom, Posts;
  }

  lemma TerminateUsers(s: State, f: int)
    requires Bound(s.users, f)
    ensures var t := DoTerminate(s, f).s;
      && t.db.messages == s.db.messages && t.users.Keys == s.users.Keys
      && forall w :: w in s.users ==> t.users[w].fd == s.users[w].fd
  {
  }

  /** Nothing falls due to the absent when a user leaves. */
  lemma NothingIsDue(s: State, u: string, v: string)
    requires u in s.users && !Online(s.users, v)
    ensures DueOfLeaving(s, u, v) == [] && DueOfTerminate(s, u, v) == []
  {
  }

  lemma TerminateBalances(s: State, f: int, v: string)
    requires Sound(s) && InSession(s) && NoneHeldOnline(s) && f > 0 && Bound(s.users, f)
    ensures Balances(s, DueOfTerminate(s, First(s.users, f), v), DoTerminate(s, f), [], v)
    ensures NoneHeldOnline(DoTerminate(s, f).s)
  {
    hide DoTerminate, DueOfTerminate, Balances;
    TerminateUsers(s, f);
    if Online(s.users, v) { TerminateArrives(s, f, v); } else { NothingIsDue(s, First(s.users, f), v); }
    QuietBalances(s, DueOfTerminate(s, First(s.users, f), v), DoTerminate(s, f), v);
  }

  lemma SwitchOffArrives(s: State, f: int, v: string)
    requires Sound(s) && InSession(s) && f > 0 && Bound(s.users, f) && Online(s.users, v) && v != First(s.users, f)
    ensures Posts(To(SwitchOff(s, f).out, s.users[v].fd)) == DueOfLeaving(s, First(s.users, f), v)
  {
    var u := First(s.users, f);
    if s.users[u].state.kind == IN_ROOM { LeaveReaches(s, u, v); }
  }

  lemma DisconnectArrives(s: State, f: int, v: string)
    requires Sound(s) && InSession(s) && f > 0 && Bound(s.users, f) && Online(s.users, v) && v != First(s.users, f)
    ensures Posts(To(Disconnect(s, f).out, s.users[v].fd)) == DueOfLeaving(s, First(s.users, f), v)
  {
    hide SwitchOff, DueOfLeaving;
    var g := s.users[v].fd;
    NoticesAreNoPosts(s.users, First(s.users, f), false, g);
    SwitchOffArrives(s, f, v);
    PostsOfTwo(NoticesFrom(s.users, f, false), SwitchOff(s, f).out, g);
  }

  lemma DisconnectBalances(s: State, f: int, v: string)
    requires Sound(s) && InSession(s) && NoneHeldOnline(s) && f > 0 && Bound(s.users, f)
    ensures Balances(s, DueOfLeaving(s, First(s.users, f), v), Disconnect(s, f), [], v)
    ensures NoneHeldOnline(Disconnect(s, f).s)
  {
    hide Disconnect, Balances;
    var u := First(s.users, f);
    SwitchOffUsers(s, f);
    if Online(s.users, v) && v != u { DisconnectArrives(s, f, v); }
    QuietBalances(s, DueOfLeaving(s, u, v), Disconnect(s, f), v);
  }

  lemma LoginStores(s: State, name: string, mails: seq<Mail>, v: string)
    requires mails == StoredFor(s.db, name)
    ensures StoredFor(if mails == [] then s.db else DeleteMessages(s.db, name), v)
         == if v == name then [] else StoredFor(s.db, v)
  {
    SelectAfterDelete(s.db.messages, name, v);
  }

  lemma WelcomeArrives(hello: Reply, mails: seq<Mail>, after: map<string, User>, f: int, g: int)
    requires hello.LoginOk? && Unshared(after) && Bound(after, f) && f > 0 && g > 0
    ensures Posts(To([Write(f, hello)] + WriteAll(f, Chats(mails)) + NoticesFrom(after, f, true), g))
         == if g == f then Chats(mails) else []
  {
    PostsOfThree([Write(f, hello)], WriteAll(f, Chats(mails)), NoticesFrom(after, f, true), g);
    ToWriteAll(f, Chats(mails), g);
    NoticesAreNoPosts(after, First(after, f), true, g);
    PostsOfChats(mails);
    AnswerIsNoPost(f, hello, g);
  }

  lemma FlushedAndRest(mails: seq<Mail>)
    ensures Chats(mails) == Chats(Flushed(mails)) + Chats(mails[|Flushed(mails)|..])
  {
    ChatsConcat(Flushed(mails), mails[|Flushed(mails)|..]);
    FlushedIsLongestPrefix(mails);
    assert Flushed(mails) + mails[|Flushed(mails)|..] == mails;
  }

  /** Logging in empties the store: what the flush got through has arrived, the rest is gone. */
  lemma WelcomeBalances(s: State, f: int, name: string, hello: Reply, after: map<string, User>, t: Effect, v: string)
    requires NoneHeldOnline(s) && f > 0 && hello.LoginOk? && name in s.users && s.users[name].fd <= 0
    requires after == s.users[name := s.users[name].(fd := f)] && Unshared(after) && Bound(after, f)
    requires t.s.users == after
    requires t.s.db == if StoredFor(s.db, name) == [] then s.db else DeleteMessages(s.db, name)
    requires t.out ==
      [Write(f, hello)] + WriteAll(f, Chats(Flushed(StoredFor(s.db, name)))) + NoticesFrom(after, f, true)
    ensures var mails := StoredFor(s.db, v);
            Balances(s, [], t, if v == name then Chats(mails[|Flushed(mails)|..]) else [], v)
    ensures Online(t.s.users, v) ==> StoredFor(t.s.db, v) == []
  {
    var mails := StoredFor(s.db, name);
    LoginStores(s, name, mails, v);
    if v == name {
      WelcomeArrives(hello, Flushed(mails), after, f, f);
      FlushedAndRest(mails);
    } else if Online(s.users, v) {
      assert after[v].fd != after[name].fd;
      WelcomeArrives(hello, Flushed(mails), after, f, after[v].fd);
      assert Held(s, v) == [];
    }
  }

  lemma LoginBalances(s: State, f: int, name: string, password: string, v: string)
    requires Sound(s) && InSession(s) && NoneHeldOnline(s) && f > 0
    requires RequestGuarded(s, f, Login(name, password)) && LoginAccepted(s, name, password)
    ensures var t := DoLogin(s, f, name, password);
            var mails := StoredFor(s.db, v);
            Balances(s, [], t, if v == name then Chats(mails[|Flushed(mails)|..]) else [], v)
    ensures Online(DoLogin(s, f, name, password).s.users, v) ==> StoredFor(DoLogin(s, f, name, password).s.db, v) == []
  {
    HomeIsNotRefused(s, f, name);
    LoginShape(s, f, name, password);
    var u := s.users[name];
    WelcomeBalances(s, f, name, LoginOk(name, password, u.role, u.state.name), s.users[name := u.(fd := f)],
                    DoLogin(s, f, name, password), v);
  }

  lemma LoginRefusedBalances(s: State, f: int, name: string, password: string, v: string)
    requires NoneHeldOnline(s) && !LoginAccepted(s, name, password)
    ensures var t := DoLogin(s, f, name, password); Balances(s, [], t, [], v) && NoneHeldOnline(t.s)
  {
    if Online(s.users, v) { AnswerIsNoPost(f, LoginFail, s.users[v].fd); }
    QuietBalances(s, [], DoLogin(s, f, name, password), v);
  }

  lemma OtherAnswersAreNoPosts(s: State, f: int, r: Request, g: int)
    requires Bound(s.users, f) && !r.Login? && !r.Send? && !r.Terminate?
    ensures Posts(To(Dispatch(s, f, r).out, g)) == []
  {
  }

  lemma NobodyComesOnline(s: State, f: int, r: Request, after: map<string, User>)
    requires Bound(s.users, f) && !r.Login? && UsersStep(s, f, r, after)
    ensures forall w :: Online(after, w) ==> Online(s.users, w)
  {
  }

  /** The remaining requests write one answer to the sender and leave the messages alone. */
  lemma OtherRequestBalances(s: State, f: int, r: Request, v: string)
    requires Sound(s) && NoneHeldOnline(s) && f > 0 && Bound(s.users, f)
    requires !r.Login? && !r.Send? && !r.Terminate?
    ensures var t := Dispatch(s, f, r); Balances(s, [], t, [], v) && NoneHeldOnline(t.s)
  {
    var t := Dispatch(s, f, r);
    DispatchUsers(s, f, r);
    DispatchMessages(s, f, r);
    NobodyComesOnline(s, f, r, t.s.users);
    if Online(t.s.users, v) { OtherAnswersAreNoPosts(s, f, r, t.s.users[v].fd); }
    QuietBalances(s, [], t, v);
  }

  lemma GateBalances(s: State, f: int, v: string)
    requires NoneHeldOnline(s)
    ensures Balances(s, [], Answer(s, f, SendFail), [], v)
  {
    if Online(s.users, v) { AnswerIsNoPost(f, SendFail, s.users[v].fd); }
    QuietBalances(s, [], Answer(s, f, SendFail), v);
  }

  lemma DispatchBalances(s: State, f: int, r: Request, due: seq<Reply>, dropped: seq<Reply>, v: string)
    requires Sound(s) && InSession(s) && NoneHeldOnline(s) && f > 0
    requires r.Login? ==> RequestGuarded(s, f, r)
    requires due == if !Bound(s.users, f) then [] else
                      var u := First(s.users, f);
                      match r
                      case Send(text, time) => DueOfSend(s, u, Mail(u, text, time), v)
                      case Terminate => DueOfTerminate(s, u, v)
                      case _ => []
    requires var mails := StoredFor(s.db, v);
             dropped == if r.Login? && r.name == v && LoginAccepted(s, v, r.password)
                        then Chats(mails[|Flushed(mails)|..]) else []
    ensures Balances(s, due, Dispatch(s, f, r), dropped, v)
    ensures Online(Dispatch(s, f, r).s.users, v) ==> StoredFor(Dispatch(s, f, r).s.db, v) == []
  {
    hide Balances, DoLogin, DoSend, DoTerminate, DoWith, DoJoin, DueOfSend, DueOfLeaving;
    hide DoCreateUser, DoModifyUser, DoDeleteUser, DoCreateRoom, DoModifyRoom, DoDeleteRoom;
    if !Bound(s.users, f) && !r.Login? { GateBalances(s, f, v); }
    else if r.Login? {
      if LoginAccepted(s, r.name, r.password) { LoginBalances(s, f, r.name, r.password, v); }
      else { LoginRefusedBalances(s, f, r.name, r.password, v); }
    }
    else if r.Send? { SendBalances(s, f, r.text, r.time, v); }
    else if r.Terminate? { TerminateBalances(s, f, v); }
    else { OtherRequestBalances(s, f, r, v); }
  }

  /** The law: what is held and what is due now is what arrives, is dropped, or is held then. */
  lemma StepBalances(s: State, e: Event, v: string)
    requires Sound(s) && InSession(s) && NoneHeldOnline(s) && Enabled(s, e) && Guarded(s, e)
    ensures Balances(s, Due(s, e, v), Step(s, e), Dropped(s, e, v), v)
    ensures Online(Step(s, e).s.users, v) ==> StoredFor(Step(s, e).s.db, v) == []
  {
    hide Dispatch;
    if e.Packet? { DispatchBalances(s, s.slots[e.slot], e.request, Due(s, e, v), Dropped(s, e, v), v); }
    else if e.Hangup? && Bound(s.users, s.slots[e.slot]) { DisconnectBalances(s, s.slots[e.slot], v); }
    else { QuietBalances(s, [], Step(s, e), v); }
  }

  // Whole runs.

  ghost function ReceivedOver(s: State, es: seq<Event>, v: string): seq<Reply> {
    if es == [] then []
    else
      var front := es[..|es| - 1];
      ReceivedOver(s, front, v) + Arrived(Step(After(s, front), es[|es| - 1]), v)
  }

  ghost function DueOver(s: State, es: seq<Event>, v: string): seq<Reply>
    requires Legal(s, es)
  {
    if es == [] then []
    else
      var front := es[..|es| - 1];
      DueOver(s, front, v) + Due(After(s, front), es[|es| - 1], v)
  }

  /** At each of v's logins no stored text is empty. */
  ghost predicate CleanFlushes(s: State, es: seq<Event>, v: string) {
    es == [] || (
      var front := es[..|es| - 1];
      && CleanFlushes(s, front, v)
      && (LogsIn(After(s, front), es[|es| - 1], v) ==> AllTexts(StoredFor(After(s, front).db, v))))
  }

  lemma {:induction false} NeverHeldOnline(s: State, es: seq<Event>)
    requires Sound(s) && NobodyOnline(s) && GuardedRun(s, es)
    ensures NoneHeldOnline(After(s, es))
  {
    if es != [] {
      var front, e := es[..|es| - 1], es[|es| - 1];
      NeverHeldOnline(s, front);
      AlwaysInSession(s, front);
      forall v | Online(After(s, es).users, v) ensures StoredFor(After(s, es).db, v) == [] {
        StepBalances(After(s, front), e, v);
      }
    }
  }

  lemma {:induction false} ChatsLength(mails: seq<Mail>)
    ensures |Chats(mails)| == |mails|
  {
    if mails != [] { ChatsLength(mails[1..]); }
  }

  /** A step drops something exactly when it is a login that finds an empty text. */
  lemma DropsIffUnclean(s: State, e: Event, v: string)
    ensures Dropped(s, e, v) == [] <==> (LogsIn(s, e, v) ==> AllTexts(StoredFor(s.db, v)))
  {
    var mails := StoredFor(s.db, v);
    FlushedIsLongestPrefix(mails);
    ChatsLength(mails[|Flushed(mails)|..]);
  }

  /** The arithmetic of one more step. */
  lemma OneMoreStep(start: seq<Reply>, due: seq<Reply>, received: seq<Reply>, held: seq<Reply>,
                    dueNow: seq<Reply>, arrived: seq<Reply>, dropped: seq<Reply>, heldNow: seq<Reply>)
    requires held + dueNow == arrived + dropped + heldNow
    requires |start + due| >= |received + held|
    ensures start + due == received + held && dropped == [] ==> start + (due + dueNow) == (received + arrived) + heldNow
    ensures |start + (due + dueNow)| >= |(received + arrived) + heldNow|
    ensures |start + due| > |received + held| || dropped != [] ==>
              |start + (due + dueNow)| > |(received + arrived) + heldNow|
  {
    assert |held + dueNow| == |arrived + dropped + heldNow|;
    if start + due == received + held && dropped == [] {
      assert start + (due + dueNow) == (start + due) + dueNow == received + (held + dueNow);
      assert arrived + dropped + heldNow == arrived + heldNow;
      assert received + (arrived + heldNow) == (received + arrived) + heldNow;
    }
  }

  /** Over any run of regime B, restarts included, for every user: the messages and notices that
      arrived, followed by those held, are those held at the start followed by those due, in order,
      each exactly once, if and only if no login of that user met an empty text in the store. */
  lemma {:induction false} ExactlyOnce(s: State, es: seq<Event>, v: string)
    requires Sound(s) && NobodyOnline(s) && GuardedRun(s, es)
    ensures Legal(s, es)
    ensures Held(s, v) + DueOver(s, es, v) == ReceivedOver(s, es, v) + Held(After(s, es), v)
       <==> CleanFlushes(s, es, v)
    ensures |Held(s, v) + DueOver(s, es, v)| >= |ReceivedOver(s, es, v) + Held(After(s, es), v)|
    ensures !CleanFlushes(s, es, v) ==>
              |Held(s, v) + DueOver(s, es, v)| > |ReceivedOver(s, es, v) + Held(After(s, es), v)|
    ensures Online(After(s, es).users, v) ==> Held(After(s, es), v) == []
  {
    GuardedIsLegal(s, es);
    NeverHeldOnline(s, es);
    if es != [] {
      var front, e := es[..|es| - 1], es[|es| - 1];
      var before := After(s, front);
      ExactlyOnce(s, front, v);
      AlwaysInSession(s, front);
      NeverHeldOnline(s, front);
      StepBalances(before, e, v);
      DropsIffUnclean(before, e, v);
      OneMoreStep(Held(s, v), DueOver(s, front, v), ReceivedOver(s, front, v), Held(before, v),
                  Due(before, e, v), Arrived(Step(before, e), v), Dropped(before, e, v), Held(After(s, es), v));
    }
  }
}
