/** Regime A (any packets): what each kind of event does, told by the maps, the rooms' members,
    the slots and the packets alone. */
module Readings {
  import opened NameOrder
  import opened RoomValues
  import opened Tables
  import opened Chat
  import opened Mirror
  import opened Requests

  // The gate.

  lemma {:induction false} SendFailIsAnAnswer(out: seq<Write>, g: int)
    requires Write(g, SendFail) in out
    ensures Write(g, SendFail) in Answers(out)
  {
    if out[0] != Write(g, SendFail) { SendFailIsAnAnswer(out[1..], g); }
  }

  lemma HonestLetsThrough(s: State, f: int, u: string, r: Request, t: Effect, g: int)
    requires s.users.Keys == s.db.users.Keys && (u in s.users || r.Login?)
    requires Honest(s, f, u, r, t) && !r.Send? && !r.Other?
    ensures Write(g, SendFail) !in t.out
  {
    hide Done;
    if Write(g, SendFail) in t.out { SendFailIsAnAnswer(t.out, g); }
  }

  lemma DispatchLetsThrough(s: State, f: int, r: Request, g: int)
    requires Sound(s) && (Bound(s.users, f) || r.Login?)
    ensures Write(g, SendFail) !in Dispatch(s, f, r).out
  {
    hide Dispatch, Honest, FirstOn, Permitted;
    if Answered(s, f, r) {
      var u := Acting(s, f);
      FirstIs(s.users, f, u);
      AnswersAreHonest(s, f, u, r);
      HonestLetsThrough(s, f, u, r, Dispatch(s, f, r), g);
    } else {
      BoundIs(s.users, f);
      NoAnswerOtherwise(s, f, r);
      if Write(g, SendFail) in Dispatch(s, f, r).out { SendFailIsAnAnswer(Dispatch(s, f, r).out, g); }
    }
  }

  lemma CloseTurnsNobodyAway(s: State, f: int, g: int)
    ensures Write(g, SendFail) !in Disconnect(s, f).out
  {
    if Bound(s.users, f) {
      var u := First(s.users, f);
      var st := s.users[u].state;
      NoticesReplies(s.users, s.users.Keys, u, false);
      if st.name in s.rooms { BroadcastReplies(Remove(s.rooms[st.name], f).members, Left(u)); }
    }
  }

  /** A request from a descriptor nobody is bound to changes nothing and is answered with one
      sendFail, unless it is a login. */
  lemma GateTurnsAway(s: State, slot: nat, r: Request)
    requires slot < |s.slots| && !r.Login? && forall u :: u in s.users ==> s.users[u].fd != s.slots[slot]
    ensures Step(s, Packet(slot, r)) == Effect(s, [Write(s.slots[slot], SendFail)])
  {
    BoundIs(s.users, s.slots[slot]);
  }

  /** And nothing else ever is. */
  lemma SendFailIff(s: State, e: Event, g: int)
    requires Sound(s) && Enabled(s, e)
    ensures Write(g, SendFail) in Step(s, e).out <==>
      && e.Packet? && !e.request.Login? && g == s.slots[e.slot]
      && forall u :: u in s.users ==> s.users[u].fd != g
  {
    hide Sound, Dispatch, Disconnect, Bound;
    match e
    case Accept(_) =>
    case Packet(slot, r) =>
      BoundIs(s.users, s.slots[slot]);
      if Bound(s.users, s.slots[slot]) || r.Login? {
        DispatchLetsThrough(s, s.slots[slot], r, g);
      } else {
        GateTurnsAway(s, slot, r);
      }
    case Hangup(slot) => CloseTurnsNobodyAway(s, s.slots[slot], g);
    case Restart(_) =>
  }

  // Sequences of writes, position by position.

  /** The same packet to each member in order. */
  predicate ToEach(out: seq<Write>, members: seq<int>, r: Reply) {
    |out| == |members| && forall i :: 0 <= i < |out| ==> out[i] == Write(members[i], r)
  }

  lemma {:induction false} BroadcastIsToEach(members: seq<int>, r: Reply)
    ensures ToEach(Broadcast(members, r), members, r)
  {
    if members != [] { BroadcastIsToEach(members[1..], r); }
  }

  /** Exactly those online who talk to the user, in the order of their names. */
  ghost predicate Watchers(users: map<string, User>, among: set<string>, about: string, ns: seq<string>) {
    && (forall u :: u in ns <==> u in among && u in users && users[u].fd > 0 && users[u].state == Status(1, about))
    && forall i, j :: 0 <= i < j < |ns| ==> Precedes(ns[i], ns[j])
  }

  predicate Notified(users: map<string, User>, ns: seq<string>, online: bool, out: seq<Write>) {
    |out| == |ns| && forall i :: 0 <= i < |ns| ==> ns[i] in users && out[i] == Write(users[ns[i]].fd, Party(online))
  }

  lemma OneMoreWatcher(users: map<string, User>, rest: set<string>, about: string, u: string, later: seq<string>)
    requires u in rest && u in users && Watchers(users, rest - {u}, about, later)
    requires forall v :: v in rest && v != u ==> Precedes(u, v)
    ensures Watchers(users, rest, about,
                     if users[u].fd > 0 && users[u].state == Status(1, about) then [u] + later else later)
  {
    hide Precedes;
    var ns := [u] + later;
    forall i, j | 0 <= i < j < |ns| ensures Precedes(ns[i], ns[j]) {
      assert ns[j] == later[j - 1] && later[j - 1] in later;
      if i > 0 { assert ns[i] == later[i - 1]; }
    }
    assert forall v :: v in ns <==> v == u || v in later;
  }

  lemma LeastPrecedes(names: set<string>)
    requires names != {}
    ensures forall v :: v in names && v != Least(names) ==> Precedes(Least(names), v)
  {
    forall v | v in names && v != Least(names) ensures Precedes(Least(names), v) { LessPrecedes(Least(names), v); }
  }

  lemma NotifyOne(users: map<string, User>, u: string, online: bool, later: seq<string>, out: seq<Write>)
    requires u in users && Notified(users, later, online, out)
    ensures Notified(users, [u] + later, online, [Write(users[u].fd, Party(online))] + out)
  {
    var ns, all := [u] + later, [Write(users[u].fd, Party(online))] + out;
    forall i | 0 <= i < |ns| ensures ns[i] in users && all[i] == Write(users[ns[i]].fd, Party(online)) {
      if i > 0 { assert ns[i] == later[i - 1] && all[i] == out[i - 1]; }
    }
  }

  lemma OneMoreNotice(users: map<string, User>, rest: set<string>, about: string, online: bool, later: seq<string>)
    requires rest <= users.Keys && rest != {}
    requires Notified(users, later, online, Notices(users, rest - {Least(rest)}, about, online))
    ensures var u := Least(rest);
            Notified(users, if users[u].fd > 0 && users[u].state == Status(1, about) then [u] + later else later,
                     online, Notices(users, rest, about, online))
  {
    hide Notified, Less;
    var u := Least(rest);
    NotifyOne(users, u, online, later, Notices(users, rest - {u}, about, online));
  }

  lemma {:induction false} NoticesAre(users: map<string, User>, rest: set<string>, about: string, online: bool)
    returns (ns: seq<string>)
    requires rest <= users.Keys
    ensures Watchers(users, rest, about, ns)
    ensures Notified(users, ns, online, Notices(users, rest, about, online))
    decreases |rest|
  {
    if rest == {} { return []; }
    var u := Least(rest);
    var later := NoticesAre(users, rest - {u}, about, online);
    ns := if users[u].fd > 0 && users[u].state == Status(1, about) then [u] + later else later;
    LeastPrecedes(rest);
    OneMoreWatcher(users, rest, about, u, later);
    OneMoreNotice(users, rest, about, online, later);
    hide Precedes, Watchers, Notified, Notices;
  }

  /** The mail a flush delivers: everything before the first empty text. */
  predicate Delivered(f: int, mails: seq<Mail>, out: seq<Write>) {
    && |out| <= |mails| && (|out| < |mails| ==> mails[|out|].text == "")
    && forall i :: 0 <= i < |out| ==> mails[i].text != "" && out[i] == Write(f, Chat(mails[i]))
  }

  lemma {:induction false} FlushDelivers(f: int, mails: seq<Mail>)
    ensures Delivered(f, mails, WriteAll(f, Chats(Flushed(mails))))
  {
    if mails != [] && mails[0].text != "" {
      FlushDelivers(f, mails[1..]);
      var rest := Flushed(mails[1..]);
      assert ([mails[0]] + rest)[1..] == rest;
      assert ([Chat(mails[0])] + Chats(rest))[1..] == Chats(rest);
    }
  }

  lemma {:induction false} NothingToDelete(messages: seq<StoredMail>, receiver: string)
    requires Select(messages, receiver) == []
    ensures Others(messages, receiver) == messages
  {
    if messages != [] { NothingToDelete(messages[..|messages| - 1], receiver); }
  }

  lemma WelcomeIs(s: State, f: int, hello: Reply, w: string)
    returns (mail: seq<Write>, ns: seq<string>, notices: seq<Write>)
    requires FirstOn(s.users, f, w)
    ensures Bound(s.users, f)
    ensures var e := Welcome(s, f, hello);
      && e.s == s.(db := s.db.(messages := Others(s.db.messages, w)))
      && e.out == [Write(f, hello)] + mail + notices
    ensures Delivered(f, Select(s.db.messages, w), mail)
    ensures Notified(s.users, ns, true, notices)
    ensures if w == "" then ns == [] else Watchers(s.users, s.users.Keys, w, ns)
  {
    FirstIs(s.users, f, w);
    mail := WriteAll(f, Chats(Flushed(StoredFor(s.db, w))));
    FlushDelivers(f, StoredFor(s.db, w));
    notices := NoticesFrom(s.users, f, true);
    ns := [];
    if w != "" { ns := NoticesAre(s.users, s.users.Keys, w, true); }
    if StoredFor(s.db, w) == [] { NothingToDelete(s.db.messages, w); }
  }

  /** A login with the right password, of a user who is not online. The descriptor is bound. If the
      user's room is still there but full, or holds the descriptor, that is all, and nothing is
      written. Otherwise the user is back in its room, if that is still there, and gets the reply and
      the stored mail of the first user on the descriptor, whose watchers are told. */
  lemma LoginIs(s: State, slot: nat, name: string, password: string, w: string)
    returns (mail: seq<Write>, ns: seq<string>, notices: seq<Write>)
    requires slot < |s.slots| && name in s.users && s.users[name].fd <= 0 && s.users[name].password == password
    requires FirstOn(s.users[name := s.users[name].(fd := s.slots[slot])], s.slots[slot], w)
    ensures
      var f, x, e := s.slots[slot], s.users[name], Step(s, Packet(slot, Login(name, password)));
      var users, home := s.users[name := x.(fd := f)], x.state.name;
      var back := x.state.kind == 2 && home in s.rooms;
      if back && (|s.rooms[home].members| >= s.rooms[home].capacity || f in s.rooms[home].members) then
        e == Effect(s.(users := users), [])
      else
        && e.s == s.(users := users,
                     rooms := if back then s.rooms[home := s.rooms[home].(members := s.rooms[home].members + [f])]
                              else s.rooms,
                     db := s.db.(messages := Others(s.db.messages, w)))
        && e.out == [Write(f, LoginOk(name, password, x.role, home))] + mail + notices
        && Delivered(f, Select(s.db.messages, w), mail)
        && Notified(users, ns, true, notices)
        && (if w == "" then ns == [] else Watchers(users, users.Keys, w, ns))
  {
    var f, x := s.slots[slot], s.users[name];
    var back := Rejoined(s, f, name);
    mail, ns, notices := WelcomeIs(back, f, LoginOk(name, password, x.role, x.state.name), w);
    hide FirstOn, Welcome, Delivered, Notified, Watchers;
  }

  /** A message goes from the last user on the descriptor: to the partner, into the table for one who
      is offline, or to the members of the room in their order, the sender's descriptor among them.
      Without a partner or a room that exists nothing happens. */
  lemma SendIs(s: State, slot: nat, u: string, text: string, time: int)
    requires slot < |s.slots| && LastOn(s.users, s.slots[slot], u)
    ensures
      var e, st, mail := Step(s, Packet(slot, Send(text, time))), s.users[u].state, Mail(u, text, time);
      if st.kind == 1 && st.name in s.users then
        if s.users[st.name].fd < 0 then
          e == Effect(s.(db := s.db.(messages := s.db.messages + [StoredMail(st.name, mail)])), [])
        else e == Effect(s, [Write(s.users[st.name].fd, Chat(mail))])
      else if st.kind == 2 && st.name in s.rooms then
        e.s == s && ToEach(e.out, s.rooms[st.name].members, Chat(mail))
      else e == Effect(s, [])
  {
    LastIs(s.users, s.slots[slot], u);
    var st := s.users[u].state;
    if st.name in s.rooms { BroadcastIsToEach(s.rooms[st.name].members, Chat(Mail(u, text, time))); }
    hide LastOn, ToEach;
  }

  /** Leaving: out of the member list, and one notice to each who stays, in order. */
  predicate Leaves(before: map<string, RoomValue>, f: int, u: string, room: string,
                   after: map<string, RoomValue>, out: seq<Write>)
  {
    if room in before then
      && room in after && TakenOut(before[room].members, f, after[room].members)
      && after == before[room := before[room].(members := after[room].members)]
      && ToEach(out, after[room].members, Left(u))
    else after == before && out == []
  }

  lemma LeaveIs(s: State, f: int, u: string, room: string)
    ensures var e := LeaveRoom(s, f, room, u);
            e.s == s.(rooms := e.s.rooms) && Leaves(s.rooms, f, u, room, e.s.rooms, e.out)
  {
    if room in s.rooms {
      RemoveFirstTakesOut(s.rooms[room].members, f);
      BroadcastIsToEach(RemoveFirst(s.rooms[room].members, f), Left(u));
    }
    hide TakenOut, ToEach;
  }

  /** Ending a talk: whoever is with somebody leaves the room it is in, if any, is idle from then on,
      in the map and in the table, and is told so last. */
  lemma TerminateIs(s: State, slot: nat, u: string) returns (notices: seq<Write>)
    requires Sound(s) && slot < |s.slots| && FirstOn(s.users, s.slots[slot], u)
    ensures
      var f, e, st := s.slots[slot], Step(s, Packet(slot, Terminate)), s.users[u].state;
      if st.name == "" then e == Effect(s, [Write(f, TerminateFail)])
      else
        && e.s == WithState(s, u, Status(0, ""), None).(rooms := e.s.rooms)
        && e.out == notices + [Write(f, Terminated)]
        && (if st.kind == 2 then Leaves(s.rooms, f, u, st.name, e.s.rooms, notices)
            else e.s.rooms == s.rooms && notices == [])
  {
    var f, st := s.slots[slot], s.users[u].state;
    FirstIs(s.users, f, u);
    LeaveIs(s, f, u, st.name);
    notices := if st.kind == IN_ROOM then LeaveRoom(s, f, st.name, u).out else [];
    hide FirstOn, LeaveRoom, Leaves;
  }

  lemma SwitchOffIs(s: State, f: int, u: string)
    requires Bound(s.users, f) && First(s.users, f) == u && u in s.db.users
    ensures
      var e, st := SwitchOff(s, f), s.users[u].state;
      && e.s == State(s.users[u := s.users[u].(state := Status(0, ""), fd := -1)], e.s.rooms, s.slots, s.maxi,
                      s.db.(users := s.db.users[u := s.db.users[u].(column := None)]))
      && (if st.kind == 2 then Leaves(s.rooms, f, u, st.name, e.s.rooms, e.out)
          else e.s.rooms == s.rooms && e.out == [])
  {
    LeaveIs(s, f, u, s.users[u].state.name);
    hide LeaveRoom, Leaves;
  }

  /** A closed connection frees its slot. Whoever was first on it is offline and idle from then on;
      its watchers are told first, then those who stay in its room. */
  lemma CloseIs(s: State, slot: nat, u: string)
    returns (ns: seq<string>, notices: seq<Write>, farewells: seq<Write>)
    requires Sound(s) && slot < |s.slots| && FirstOn(s.users, s.slots[slot], u)
    ensures
      var f, e, st := s.slots[slot], Step(s, Hangup(slot)), s.users[u].state;
      && e.s == State(s.users[u := s.users[u].(state := Status(0, ""), fd := -1)], e.s.rooms,
                      s.slots[slot := -1], s.maxi,
                      s.db.(users := s.db.users[u := s.db.users[u].(column := None)]))
      && e.out == notices + farewells
      && Notified(s.users, ns, false, notices)
      && (if u == "" then ns == [] else Watchers(s.users, s.users.Keys, u, ns))
      && (if st.kind == 2 then Leaves(s.rooms, f, u, st.name, e.s.rooms, farewells)
          else e.s.rooms == s.rooms && farewells == [])
  {
    var f := s.slots[slot];
    FirstIs(s.users, f, u);
    SwitchOffIs(s, f, u);
    notices, farewells, ns := NoticesFrom(s.users, f, false), SwitchOff(s, f).out, [];
    if u != "" { ns := NoticesAre(s.users, s.users.Keys, u, false); }
    hide FirstOn, SwitchOff, Leaves, Watchers, Notified, Notices;
  }

  /** A close on a descriptor nobody is bound to frees the slot, and that is all. */
  lemma CloseUnbound(s: State, slot: nat)
    requires slot < |s.slots| && forall u :: u in s.users ==> s.users[u].fd != s.slots[slot]
    ensures Step(s, Hangup(slot)) == Effect(s.(slots := s.slots[slot := -1]), [])
  {
    BoundIs(s.users, s.slots[slot]);
  }

  /** A new descriptor takes the first free slot behind the listening socket's. */
  lemma AcceptIs(s: State, fd: int, i: nat)
    requires 1 <= i < |s.slots| && s.slots[i] < 0 && forall k :: 1 <= k < i ==> s.slots[k] >= 0
    ensures Step(s, Accept(fd)) == Effect(s.(slots := s.slots[i := fd], maxi := if i > s.maxi then i else s.maxi), [])
  {
    assert FreeSlot(s.slots, 1) == i;
  }

  /** What a start or restart makes of the tables: everybody offline in the state its column tells,
      every room empty, and one open slot of 35, the listening socket's. */
  lemma BootIs(s: State, listenfd: int)
    ensures
      var t := Step(s, Restart(listenfd)).s;
      && t.users.Keys == s.db.users.Keys
      && (forall u :: u in s.db.users ==>
            var row, x := s.db.users[u], t.users[u];
            && x.password == row.password && x.role == row.role && x.fd == -1
            && x.state == if row.column == None || row.column == Some("") then Status(0, "")
                          else if "ROOM " <= row.column.value then Status(2, row.column.value[5..])
                          else Status(1, row.column.value))
      && t.rooms.Keys == s.db.rooms.Keys
      && (forall k :: k in s.db.rooms ==>
            t.rooms[k] == RoomValue(k, if s.db.rooms[k] < 0 then 0 else s.db.rooms[k], []))
      && |t.slots| == 35 && t.slots[0] == listenfd && (forall i :: 1 <= i < 35 ==> t.slots[i] == -1)
      && t.maxi == 0 && t.db == s.db
    ensures Step(s, Restart(listenfd)).out == []
  {
    forall u | u in s.db.users ensures u in MapUser(s.db) && MapUser(s.db)[u] == UserOf(s.db.users[u]) { }
    hide MapUser;
  }

  /** Runs one event at a time: what may come next, and where it leads. */
  lemma LegalRuns(s: State, es: seq<Event>, e: Event)
    ensures Legal(s, []) && After(s, []) == s
    ensures After(s, es + [e]) == Step(After(s, es), e).s
    ensures
      var t := After(s, es);
      var next :=
        match e
        case Accept(fd) =>
          (fd == -1 || (fd > 0 && fd !in t.slots)) && exists i :: 1 <= i < |t.slots| && t.slots[i] < 0
        case Packet(slot, _) => 1 <= slot <= t.maxi && slot < |t.slots| && t.slots[slot] > 0
        case Hangup(slot) => 1 <= slot <= t.maxi && slot < |t.slots| && t.slots[slot] > 0
        case Restart(listenfd) => listenfd >= 0;
      Legal(s, es + [e]) <==> Legal(s, es) && next
  {
    assert (es + [e])[..|es|] == es;
    hide Step;
  }
}
