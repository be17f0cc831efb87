/** The client program's flags, as the packets it receives set them. */
module Clients {
  import opened RoomValues
  import opened Tables
  import opened Chat
  import opened Mirror
  import opened Safety
  import opened Sessions
  import opened Wire

  /** flag_l, flag_w, flag_j and flag_w_online. */
  datatype View = View(loggedIn: bool, withUser: bool, inRoom: bool, partnerOnline: bool)

  const FRESH_VIEW := View(false, false, false, false)

  /** The flag updates of receiverHandler. */
  function Receive(v: View, r: Reply): View {
    match r
    case LoginOk(_, _, _, _) => v.(loggedIn := true)
    case JoinOk => v.(withUser := false, inRoom := true)
    case WithOk(online) => v.(withUser := true, inRoom := false, partnerOnline := online)
    case Party(online) => v.(partnerOnline := online)
    case Terminated => v.(withUser := false, inRoom := false)
    case _ => v
  }

  function ReceiveAll(v: View, rs: seq<Reply>): View
    decreases |rs|
  {
    if rs == [] then v else ReceiveAll(Receive(v, rs[0]), rs[1..])
  }

  /** The flags of the client behind descriptor f: fresh when accepted, then updated by
      everything the server writes to f. (A restart ends every connection; whoever connects
      afterwards is accepted afresh.) */
  ghost function ViewOf(s: State, es: seq<Event>, f: int): View {
    if es == [] then FRESH_VIEW
    else
      var front, last := es[..|es| - 1], es[|es| - 1];
      if last == Accept(f) then FRESH_VIEW
      else ReceiveAll(ViewOf(s, front, f), To(Step(After(s, front), last).out, f))
  }

  /** What the client program lets its user send. */
  predicate Polite(v: View, r: Request) {
    && (r.Login? ==> !v.loggedIn)
    && (r.With? || r.Join? ==> !v.withUser && !v.inRoom)
  }

  /** Every event is enabled, and every packet is one its client lets its user send. */
  ghost predicate Disciplined(s: State, es: seq<Event>) {
    es == [] || (
      var front, last := es[..|es| - 1], es[|es| - 1];
      && Disciplined(s, front)
      && Enabled(After(s, front), last)
      && (last.Packet? ==> Polite(ViewOf(s, front, After(s, front).slots[last.slot]), last.request)))
  }

  /** The flags of a client tell the truth about one user. Nobody announces the user with the
      empty name: its presence is left out unless all partners are asked about. */
  predicate Fits(v: View, x: User, users: map<string, User>, all: bool) {
    && v.loggedIn
    && (v.withUser <==> x.state.kind == WITH_USER)
    && (v.inRoom <==> x.state.kind == IN_ROOM)
    && (x.state.kind == WITH_USER && (all || x.state.name != "") ==> v.partnerOnline == Online(users, x.state.name))
  }

  /** The flags of the client on f tell the truth about whoever is bound to f. */
  predicate Agrees(users: map<string, User>, f: int, v: View, all: bool) {
    && (forall u :: u in users && users[u].fd == f ==> Fits(v, users[u], users, all))
    && (!Bound(users, f) ==> !v.loggedIn && !v.withUser && !v.inRoom)
  }

  lemma {:induction false} ReceiveAllConcat(v: View, a: seq<Reply>, b: seq<Reply>)
    ensures ReceiveAll(v, a + b) == ReceiveAll(ReceiveAll(v, a), b)
    decreases |a|
  {
    if a == [] { assert a + b == b; }
    else { assert (a + b)[1..] == a[1..] + b; ReceiveAllConcat(Receive(v, a[0]), a[1..], b); }
  }

  lemma {:induction false} ChatsChangeNoFlag(v: View, mails: seq<Mail>)
    ensures ReceiveAll(v, Chats(mails)) == v
  {
    if mails != [] { ChatsChangeNoFlag(v, mails[1..]); }
  }

  /** Flags stay true while the user map changes only where the client does not look. */
  lemma AgreesCarries(before: map<string, User>, after: map<string, User>, f: int, v: View, all: bool)
    requires Agrees(before, f, v, all)
    requires forall u :: u in after && after[u].fd == f ==> u in before && after[u] == before[u]
    requires forall u :: u in before && before[u].fd == f ==> u in after && after[u] == before[u]
    requires forall u :: u in after && after[u].fd == f && after[u].state.kind == WITH_USER ==>
               Online(after, after[u].state.name) == Online(before, after[u].state.name)
    ensures Agrees(after, f, v, all)
  {
    if Bound(before, f) {
      var u :| u in Holders(before, f);
      assert u in Holders(after, f);
    }
  }

  // One lemma a handler. The origin is f; the client looked at is on g.

  lemma PutStateAgrees(users: map<string, User>, u: string, st: Status, g: int, v: View, w: View, all: bool)
    requires Unshared(users) && u in users && users[u].fd > 0 && Agrees(users, g, v, all)
    requires if users[u].fd == g then Fits(w, users[u].(state := st), users, all) else w == v
    ensures Agrees(PutState(users, u, st), g, w, all)
  {
    var after := PutState(users, u, st);
    if users[u].fd == g {
      assert u in Holders(after, g);
      assert Fits(w, after[u], after, all);
    } else {
      AgreesCarries(users, after, g, v, all);
    }
  }

  lemma WithAgrees(s: State, f: int, name: string, g: int, v: View, all: bool)
    requires FdsSound(s.users) && InSession(s) && f > 0 && Bound(s.users, f) && Agrees(s.users, g, v, all)
    ensures var t := DoWith(s, f, name); Agrees(t.s.users, g, ReceiveAll(v, To(t.out, g)), all)
  {
    if name in s.users && s.users[name].fd != f {
      var online := s.users[name].fd >= 0;
      var w := if f == g then Receive(v, WithOk(online)) else v;
      assert ReceiveAll(v, To([Write(f, WithOk(online))], g)) == w;
      PutStateAgrees(s.users, First(s.users, f), Status(WITH_USER, name), g, v, w, all);
    }
  }

  lemma JoinAgrees(s: State, f: int, room: string, g: int, v: View, all: bool)
    requires InSession(s) && f > 0 && Bound(s.users, f) && Agrees(s.users, g, v, all)
    ensures var t := DoJoin(s, f, room); Agrees(t.s.users, g, ReceiveAll(v, To(t.out, g)), all)
  {
    assert f == g ==> Fits(v, s.users[First(s.users, f)], s.users, all);
    hide Agrees;
    if room in s.rooms && AddCode(s.rooms[room], f) > 0 {
      var w := if f == g then Receive(v, JoinOk) else v;
      assert ReceiveAll(v, To([Write(f, JoinOk)], g)) == w;
      PutStateAgrees(s.users, First(s.users, f), Status(IN_ROOM, room), g, v, w, all);
    }
  }

  /** Room notices change no flag. */
  lemma LeaveChangesNoFlag(s: State, f: int, room: string, who: string, g: int, v: View)
    requires RoomsSound(s.rooms)
    ensures ReceiveAll(v, To(LeaveRoom(s, f, room, who).out, g)) == v
  {
    if room in s.rooms {
      RemoveFirstIsWithout(s.rooms[room].members, f);
      ToBroadcast(RemoveFirst(s.rooms[room].members, f), Left(who), g);
    }
  }

  lemma TerminateAgrees(s: State, f: int, g: int, v: View, all: bool)
    requires RoomsSound(s.rooms) && InSession(s) && f > 0 && Bound(s.users, f) && Agrees(s.users, g, v, all)
    ensures var t := DoTerminate(s, f); Agrees(t.s.users, g, ReceiveAll(v, To(t.out, g)), all)
  {
    var u := First(s.users, f);
    var st := s.users[u].state;
    if st.name != "" {
      var gone := if st.kind == IN_ROOM then LeaveRoom(s, f, st.name, u) else Effect(s, []);
      assert ReceiveAll(v, To(gone.out, g)) == v by { LeaveChangesNoFlag(s, f, st.name, u, g, v); }
      var w := if f == g then Receive(v, Terminated) else v;
      assert ReceiveAll(v, To(gone.out + [Write(f, Terminated)], g)) == w by {
        ToConcat(gone.out, [Write(f, Terminated)], g);
        ReceiveAllConcat(v, To(gone.out, g), To([Write(f, Terminated)], g));
      }
      PutStateAgrees(s.users, u, IDLE_STATE, g, v, w, all);
    }
  }

  /** A presence notice sets the flag of the client whose user watches, and no other. */
  lemma NoticesTell(users: map<string, User>, about: string, online: bool, g: int, v: View, w: string)
    requires Unshared(users) && g > 0 && w in users && users[w].fd == g
    ensures ReceiveAll(v, To(Notices(users, users.Keys, about, online), g))
         == if Watches(users[w], about) then v.(partnerOnline := online) else v
  {
    ToNotices(users, users.Keys, about, online, g);
    if Watches(users[w], about) {
      assert w in users.Keys;
      assert ReceiveAll(v, [Party(online)]) == v.(partnerOnline := online);
    }
  }

  lemma NoticesToNobody(users: map<string, User>, about: string, online: bool, g: int)
    requires forall u :: u in users ==> users[u].fd != g
    ensures To(Notices(users, users.Keys, about, online), g) == []
  {
    ToNotices(users, users.Keys, about, online, g);
  }

  /** Somebody else is talking to the user. */
  predicate Awaited(users: map<string, User>, about: string) {
    exists w :: w in users && w != about && Watches(users[w], about)
  }

  /** A user comes or goes: whoever watches is told, so every other client's flags stay true. The
      user with the empty name must not be watched. */
  lemma PresenceAgrees(before: map<string, User>, after: map<string, User>, about: string, online: bool,
                       told: map<string, User>, g: int, v: View, all: bool)
    requires Agrees(before, g, v, all) && Unshared(told) && g > 0 && (told == before || told == after)
    requires before.Keys == after.Keys && about in after && (online <==> Online(after, about))
    requires forall u :: u in after && u != about ==> after[u] == before[u]
    requires before[about].fd != g && after[about].fd != g
    requires all && about == "" ==> !Awaited(before, about)
    ensures var news := if about == "" then [] else Notices(told, told.Keys, about, online);
            Agrees(after, g, ReceiveAll(v, To(news, g)), all)
  {
    var heard := ReceiveAll(v, To(if about == "" then [] else Notices(told, told.Keys, about, online), g));
    if Bound(before, g) {
      forall w | w in after && after[w].fd == g ensures Fits(heard, after[w], after, all) {
        assert w in before && after[w] == before[w] && told[w] == before[w];
        NoticesTell(told, about, online, g, v, w);
        assert Fits(v, before[w], before, all);
      }
      var w :| w in Holders(before, g);
      assert w in Holders(after, g);
    } else {
      UnboundMeansAbsent(before, g);
      NoticesToNobody(told, about, online, g);
      assert Holders(after, g) == {};
    }
  }

  lemma WelcomeTells(v: View, hello: Reply, mails: seq<Mail>, news: seq<Write>, f: int, g: int)
    requires hello.LoginOk?
    ensures var out := [Write(f, hello)] + WriteAll(f, Chats(mails)) + news;
            ReceiveAll(v, To(out, g)) == ReceiveAll(if f == g then v.(loggedIn := true) else v, To(news, g))
  {
    var first, rest := [Write(f, hello)], WriteAll(f, Chats(mails));
    var w := if f == g then v.(loggedIn := true) else v;
    ToConcat(first + rest, news, g);
    ToConcat(first, rest, g);
    ToWriteAll(f, Chats(mails), g);
    ReceiveAllConcat(v, To(first, g) + To(rest, g), To(news, g));
    ReceiveAllConcat(v, To(first, g), To(rest, g));
    assert ReceiveAll(v, To(first, g)) == w;
    ChatsChangeNoFlag(w, mails);
  }

  /** The flags of the client that has just logged in. */
  lemma NewcomerAgrees(s: State, f: int, name: string, after: map<string, User>, v: View, all: bool)
    requires f > 0 && !Bound(s.users, f) && Agrees(s.users, f, v, all)
    requires name in s.users && s.users[name].state == IDLE_STATE && after == s.users[name := s.users[name].(fd := f)]
    requires Unshared(after) && Bound(after, f) && First(after, f) == name
    ensures Agrees(after, f, ReceiveAll(v.(loggedIn := true), To(NoticesFrom(after, f, true), f)), all)
  {
    NoticesTell(after, name, true, f, v.(loggedIn := true), name);
    assert Fits(v.(loggedIn := true), after[name], after, all);
  }

  lemma LoginAgrees(s: State, f: int, name: string, password: string, g: int, v: View, all: bool)
    requires FdsSound(s.users) && Unshared(s.users) && f > 0 && g > 0 && Agrees(s.users, g, v, all)
    requires LoginAccepted(s, name, password) ==> s.users[name].state == IDLE_STATE && !Bound(s.users, f)
    requires all && name == "" && LoginAccepted(s, name, password) ==> !Awaited(s.users, "")
    ensures var t := DoLogin(s, f, name, password); Agrees(t.s.users, g, ReceiveAll(v, To(t.out, g)), all)
  {
    if LoginAccepted(s, name, password) {
      LoginShape(s, f, name, password);
      var u := s.users[name];
      var after := s.users[name := u.(fd := f)];
      var news := NoticesFrom(after, f, true);
      WelcomeTells(v, LoginOk(name, password, u.role, ""), Flushed(StoredFor(s.db, name)), news, f, g);
      if g == f {
        NewcomerAgrees(s, f, name, after, v, all);
      } else {
        UnboundMeansAbsent(s.users, f);
        PresenceAgrees(s.users, after, name, true, after, g, v, all);
      }
    }
  }

  /** A login tells its client nothing of a talk or a room. */
  lemma LoginTellsNoTalk(s: State, f: int, name: string, password: string, v: View)
    requires FdsSound(s.users) && Unshared(s.users) && f > 0 && !Bound(s.users, f) && LoginAccepted(s, name, password)
    ensures var heard := ReceiveAll(v, To(DoLogin(s, f, name, password).out, f));
            heard.withUser == v.withUser && heard.inRoom == v.inRoom
  {
    if !ReAddRefused(s, f, name) {
      LoginShape(s, f, name, password);
      var u := s.users[name];
      var after := s.users[name := u.(fd := f)];
      var mails := Flushed(StoredFor(s.db, name));
      WelcomeTells(v, LoginOk(name, password, u.role, u.state.name), mails, NoticesFrom(after, f, true), f, f);
      if name != "" { NoticesTell(after, name, true, f, v.(loggedIn := true), name); }
    }
  }

  /** So one that finds a talk or a room going on leaves its client's flags wrong. */
  lemma StaleLoginDisagrees(s: State, f: int, name: string, password: string, v: View, all: bool)
    requires FdsSound(s.users) && Unshared(s.users) && f > 0 && !Bound(s.users, f) && Agrees(s.users, f, v, all)
    requires LoginAccepted(s, name, password) && s.users[name].state.kind in {WITH_USER, IN_ROOM}
    ensures var t := DoLogin(s, f, name, password); !Agrees(t.s.users, f, ReceiveAll(v, To(t.out, f)), all)
  {
    LoginTellsNoTalk(s, f, name, password, v);
    var t := DoLogin(s, f, name, password);
    assert t.s.users[name] == s.users[name].(fd := f);
    assert !Fits(ReceiveAll(v, To(t.out, f)), t.s.users[name], t.s.users, all);
  }

  lemma SwitchOffChangesNoFlag(s: State, f: int, g: int, v: View)
    requires RoomsSound(s.rooms) && Bound(s.users, f)
    ensures ReceiveAll(v, To(SwitchOff(s, f).out, g)) == v
  {
    var u := First(s.users, f);
    LeaveChangesNoFlag(s, f, s.users[u].state.name, u, g, v);
  }

  lemma DisconnectTells(s: State, f: int, g: int, v: View)
    requires RoomsSound(s.rooms) && Bound(s.users, f)
    ensures ReceiveAll(v, To(Disconnect(s, f).out, g)) == ReceiveAll(v, To(NoticesFrom(s.users, f, false), g))
  {
    var news, off := NoticesFrom(s.users, f, false), SwitchOff(s, f).out;
    ToConcat(news, off, g);
    ReceiveAllConcat(v, To(news, g), To(off, g));
    SwitchOffChangesNoFlag(s, f, g, ReceiveAll(v, To(news, g)));
  }

  lemma GoingOfflineAgrees(users: map<string, User>, f: int, after: map<string, User>, g: int, v: View, all: bool)
    requires Unshared(users) && f > 0 && g > 0 && g != f && Bound(users, f) && Agrees(users, g, v, all)
    requires var u := First(users, f); after == users[u := users[u].(state := IDLE_STATE, fd := OFFLINE)]
    requires all && First(users, f) == "" ==> !Awaited(users, "")
    ensures Agrees(after, g, ReceiveAll(v, To(NoticesFrom(users, f, false), g)), all)
  {
    PresenceAgrees(users, after, First(users, f), false, users, g, v, all);
  }

  lemma DisconnectAgrees(s: State, f: int, g: int, v: View, all: bool)
    requires Sound(s) && InSession(s) && f > 0 && g > 0 && g != f && Agrees(s.users, g, v, all)
    requires all && Bound(s.users, f) && First(s.users, f) == "" ==> !Awaited(s.users, "")
    ensures var t := Disconnect(s, f); Agrees(t.s.users, g, ReceiveAll(v, To(t.out, g)), all)
  {
    hide Agrees, SwitchOff, NoticesFrom;
    if Bound(s.users, f) {
      SwitchOffUsers(s, f);
      DisconnectTells(s, f, g, v);
      GoingOfflineAgrees(s.users, f, Disconnect(s, f).s.users, g, v, all);
    }
  }

  lemma AccountAgrees(s: State, f: int, r: Request, after: map<string, User>, g: int, v: View, all: bool)
    requires Sound(s) && f > 0 && Bound(s.users, f) && AboutAccounts(r) && UsersStep(s, f, r, after)
    requires g > 0 && Agrees(s.users, g, v, all)
    ensures Agrees(after, g, v, all)
  {
    AccountFrame(s, f, r, after);
    assert forall name :: Online(after, name) == Online(s.users, name);
    AgreesCarries(s.users, after, g, v, all);
  }

  lemma SendChangesNoFlag(s: State, f: int, text: string, time: int, g: int, v: View)
    requires RoomsSound(s.rooms) && Bound(s.users, f)
    ensures ReceiveAll(v, To(DoSend(s, f, text, time).out, g)) == v
  {
    var u := Last(s.users, f);
    var room := s.users[u].state.name;
    if room in s.rooms {
      ToBroadcast(s.rooms[room].members, Chat(Mail(u, text, time)), g);
    }
  }

  /** The answers of the remaining requests carry no flag. */
  lemma OtherAnswersChangeNoFlag(s: State, f: int, r: Request, g: int, v: View)
    requires RoomsSound(s.rooms) && Bound(s.users, f)
    requires !r.Login? && !r.With? && !r.Join? && !r.Terminate?
    ensures ReceiveAll(v, To(Dispatch(s, f, r).out, g)) == v
  {
    if r.Send? { SendChangesNoFlag(s, f, r.text, r.time, g, v); }
  }

  lemma OtherRequestAgrees(s: State, f: int, r: Request, g: int, v: View, all: bool)
    requires Sound(s) && f > 0 && Bound(s.users, f) && g > 0 && Agrees(s.users, g, v, all)
    requires !r.Login? && !r.With? && !r.Join? && !r.Terminate?
    ensures var t := Dispatch(s, f, r); Agrees(t.s.users, g, ReceiveAll(v, To(t.out, g)), all)
  {
    OtherAnswersChangeNoFlag(s, f, r, g, v);
    DispatchUsers(s, f, r);
    if AboutAccounts(r) { AccountAgrees(s, f, r, Dispatch(s, f, r).s.users, g, v, all); }
  }

  lemma SendFailChangesNoFlag(f: int, g: int, v: View)
    ensures ReceiveAll(v, To([Write(f, SendFail)], g)) == v
  {
    assert To([Write(f, SendFail)], g) == if f == g then [SendFail] else [];
  }

  lemma DispatchAgrees(s: State, f: int, r: Request, g: int, v: View, all: bool)
    requires Sound(s) && InSession(s) && f > 0 && g > 0 && Agrees(s.users, g, v, all)
    requires r.Login? && LoginAccepted(s, r.name, r.password) ==>
               s.users[r.name].state == IDLE_STATE && !Bound(s.users, f)
    requires all && r.Login? && r.name == "" && LoginAccepted(s, r.name, r.password) ==> !Awaited(s.users, "")
    ensures var t := Dispatch(s, f, r); Agrees(t.s.users, g, ReceiveAll(v, To(t.out, g)), all)
  {
    hide Agrees, ReceiveAll, To, DoLogin, DoWith, DoJoin, DoTerminate, DoSend;
    hide DoCreateUser, DoModifyUser, DoDeleteUser, DoCreateRoom, DoModifyRoom, DoDeleteRoom;
    if Bound(s.users, f) || r.Login? {
      if r.Login? { LoginAgrees(s, f, r.name, r.password, g, v, all); }
      else if r.With? { WithAgrees(s, f, r.name, g, v, all); }
      else if r.Join? { JoinAgrees(s, f, r.room, g, v, all); }
      else if r.Terminate? { TerminateAgrees(s, f, g, v, all); }
      else { OtherRequestAgrees(s, f, r, g, v, all); }
    } else {
      SendFailChangesNoFlag(f, g, v);
    }
  }

  /** A descriptor that is not open is bound to nobody and sits in no room. */
  lemma ClosedMeansUnused(s: State, f: int)
    requires Sound(s) && InSession(s) && f > 0 && !Open(s.slots, s.maxi, f)
    ensures !Bound(s.users, f)
    ensures forall u :: u in s.users ==> s.users[u].fd != f
    ensures forall k :: k in s.rooms ==> f !in s.rooms[k].members
  {
  }

  lemma DispatchKeepsSlots(s: State, f: int, r: Request)
    ensures Dispatch(s, f, r).s.slots == s.slots && Dispatch(s, f, r).s.maxi == s.maxi
  {
  }

  lemma OpenBefore(s: State, e: Event, f: int)
    requires Sound(s) && Enabled(s, e) && !e.Restart? && f > 0 && e != Accept(f)
    requires Open(Step(s, e).s.slots, Step(s, e).s.maxi, f)
    ensures Open(s.slots, s.maxi, f)
    ensures e.Hangup? ==> f != s.slots[e.slot]
  {
    var t := Step(s, e).s;
    var i :| 1 <= i <= t.maxi && i < |t.slots| && t.slots[i] == f;
    if e.Packet? { DispatchKeepsSlots(s, s.slots[e.slot], e.request); }
    if e.Hangup? { DisconnectKeepsSound(s, s.slots[e.slot]); }
    assert s.slots[i] == f;
  }

  /** The event makes the user with the empty name come or go while somebody is talking to it. */
  ghost predicate MissesNameless(s: State, e: Event) {
    && Awaited(s.users, "")
    && match e
       case Packet(_, Login(name, password)) => name == "" && LoginAccepted(s, name, password)
       case Hangup(slot) => slot < |s.slots| && Bound(s.users, s.slots[slot]) && First(s.users, s.slots[slot]) == ""
       case _ => false
  }

  ghost predicate NeverMissesNameless(s: State, es: seq<Event>) {
    es == [] || (
      var front := es[..|es| - 1];
      NeverMissesNameless(s, front) && !MissesNameless(After(s, front), es[|es| - 1]))
  }

  lemma StepAgrees(s: State, e: Event, g: int, v: View, all: bool)
    requires Sound(s) && InSession(s) && Enabled(s, e) && Guarded(s, e) && FindsIdle(s, e)
    requires all ==> !MissesNameless(s, e)
    requires !e.Restart? && g > 0 && e != Accept(g)
    requires e.Hangup? ==> g != s.slots[e.slot]
    requires Agrees(s.users, g, v, all)
    ensures var t := Step(s, e); Agrees(t.s.users, g, ReceiveAll(v, To(t.out, g)), all)
  {
    match e
    case Accept(_) =>
    case Packet(slot, r) => DispatchAgrees(s, s.slots[slot], r, g, v, all);
    case Hangup(slot) => DisconnectAgrees(s, s.slots[slot], g, v, all);
    case Restart(_) =>
  }

  /** A polite packet passes the guards the server does not check. */
  lemma PoliteIsGuarded(s: State, slot: nat, r: Request, v: View, all: bool)
    requires Enabled(s, Packet(slot, r)) && Agrees(s.users, s.slots[slot], v, all) && Polite(v, r)
    requires FindsIdle(s, Packet(slot, r))
    ensures Guarded(s, Packet(slot, r))
  {
    var f := s.slots[slot];
    if Bound(s.users, f) { assert Fits(v, s.users[First(s.users, f)], s.users, all); }
  }

  ghost predicate AllAgree(s: State, es: seq<Event>, all: bool) {
    forall f :: f > 0 && Open(After(s, es).slots, After(s, es).maxi, f) ==>
      Agrees(After(s, es).users, f, ViewOf(s, es, f), all)
  }

  lemma LastStepIsGuarded(s: State, es: seq<Event>, all: bool)
    requires es != [] && Disciplined(s, es)
    requires var front := es[..|es| - 1]; AllAgree(s, front, all) && FindsIdle(After(s, front), es[|es| - 1])
    ensures Guarded(After(s, es[..|es| - 1]), es[|es| - 1])
  {
    var front, e := es[..|es| - 1], es[|es| - 1];
    var before := After(s, front);
    if e.Packet? {
      assert Open(before.slots, before.maxi, before.slots[e.slot]);
      PoliteIsGuarded(before, e.slot, e.request, ViewOf(s, front, before.slots[e.slot]), all);
    }
  }

  /** After a restart no connection is open. */
  lemma NothingOpenAfterBoot(db: Database, listenfd: int, f: int)
    ensures !Open(Boot(db, listenfd).slots, Boot(db, listenfd).maxi, f)
  {
  }

  lemma AcceptedAgrees(before: State, f: int, all: bool)
    requires Sound(before) && InSession(before) && Enabled(before, Accept(f)) && f > 0
    ensures Agrees(Step(before, Accept(f)).s.users, f, FRESH_VIEW, all)
  {
    assert !Open(before.slots, before.maxi, f);
    ClosedMeansUnused(before, f);
    assert Step(before, Accept(f)).s.users == before.users;
  }

  /** One client after one more event: fresh if the event accepted it, informed otherwise. */
  lemma OpenClientAgrees(before: State, e: Event, f: int, v: View, all: bool)
    requires Sound(before) && InSession(before) && Enabled(before, e) && Guarded(before, e) && FindsIdle(before, e)
    requires all ==> !MissesNameless(before, e)
    requires f > 0 && Open(Step(before, e).s.slots, Step(before, e).s.maxi, f)
    requires Open(before.slots, before.maxi, f) ==> Agrees(before.users, f, v, all)
    ensures var t := Step(before, e);
            Agrees(t.s.users, f, if e == Accept(f) then FRESH_VIEW else ReceiveAll(v, To(t.out, f)), all)
  {
    if e.Restart? {
      NothingOpenAfterBoot(before.db, e.listenfd, f);
    } else if e == Accept(f) {
      AcceptedAgrees(before, f, all);
    } else {
      OpenBefore(before, e, f);
      StepAgrees(before, e, f, v, all);
    }
  }

  lemma LastStepAgrees(s: State, es: seq<Event>, all: bool)
    requires es != []
    requires var front, e := es[..|es| - 1], es[|es| - 1];
             var before := After(s, front);
             && Sound(before) && InSession(before) && AllAgree(s, front, all)
             && Enabled(before, e) && Guarded(before, e) && FindsIdle(before, e)
             && (all ==> !MissesNameless(before, e))
    ensures AllAgree(s, es, all)
  {
    var front, e := es[..|es| - 1], es[|es| - 1];
    forall f | f > 0 && Open(After(s, es).slots, After(s, es).maxi, f)
      ensures Agrees(After(s, es).users, f, ViewOf(s, es, f), all)
    {
      OpenClientAgrees(After(s, front), e, f, ViewOf(s, front, f), all);
    }
  }

  lemma FreshAgrees(s: State, all: bool)
    requires NobodyOnline(s)
    ensures AllAgree(s, [], all)
  {
    forall f | f > 0 ensures Agrees(s.users, f, FRESH_VIEW, all) {
      assert Holders(s.users, f) == {};
    }
  }

  /** Polite clients: while logins find idle users, every run is one of regime B, and in every
      reachable state the flags of every connected client tell the truth. */
  lemma {:induction false} PoliteRunsAreGuarded(s: State, es: seq<Event>)
    requires Sound(s) && NobodyOnline(s) && Disciplined(s, es) && LoginsFindIdle(s, es)
    ensures GuardedRun(s, es) && AllAgree(s, es, false)
  {
    if es == [] {
      FreshAgrees(s, false);
    } else {
      PoliteRunsAreGuarded(s, es[..|es| - 1]);
      AlwaysInSession(s, es[..|es| - 1]);
      LastStepIsGuarded(s, es, false);
      LastStepAgrees(s, es, false);
    }
  }

  /** Polite or not: in every run of regime B whose logins find idle users the flags of every
      connected client tell the truth, about the user with the empty name as long as it neither
      comes nor goes while somebody is talking to it. */
  lemma {:induction false} GuardedAgree(s: State, es: seq<Event>, all: bool)
    requires Sound(s) && NobodyOnline(s) && GuardedRun(s, es) && LoginsFindIdle(s, es)
    requires all ==> NeverMissesNameless(s, es)
    ensures AllAgree(s, es, all)
  {
    if es == [] {
      FreshAgrees(s, all);
    } else {
      GuardedAgree(s, es[..|es| - 1], all);
      AlwaysInSession(s, es[..|es| - 1]);
      LastStepAgrees(s, es, all);
    }
  }

  /** The flags were true after every event. */
  ghost predicate AlwaysAgree(s: State, es: seq<Event>, all: bool) {
    AllAgree(s, es, all) && (es == [] || AlwaysAgree(s, es[..|es| - 1], all))
  }

  // When flags go wrong.

  lemma StaleRequestDisagrees(before: State, slot: nat, r: Request, v: View, all: bool)
    requires Sound(before) && Unshared(before.users) && StatesKnown(before.users) && Enabled(before, Packet(slot, r))
    requires Agrees(before.users, before.slots[slot], v, all) && !FindsIdle(before, Packet(slot, r))
    requires Polite(v, r) || RequestGuarded(before, before.slots[slot], r)
    ensures var t, f := Step(before, Packet(slot, r)), before.slots[slot];
            Open(t.s.slots, t.s.maxi, f) && !Agrees(t.s.users, f, ReceiveAll(v, To(t.out, f)), all)
  {
    var f := before.slots[slot];
    StaleLoginDisagrees(before, f, r.name, r.password, v, all);
    DispatchKeepsSlots(before, f, r);
    hide DoLogin, Agrees, Sound;
  }

  /** A login that finds a talk or a room going on. */
  lemma StaleStepDisagrees(s: State, es: seq<Event>, all: bool)
    requires es != [] && (Disciplined(s, es) || GuardedRun(s, es))
    requires var front := es[..|es| - 1];
             var before := After(s, front);
             && Sound(before) && InSession(before) && StatesKnown(before.users) && AllAgree(s, front, all)
             && !FindsIdle(before, es[|es| - 1])
    ensures !AllAgree(s, es, all)
  {
    hide Sound, StatesKnown, Agrees, Dispatch, RequestGuarded;
    var front, e := es[..|es| - 1], es[|es| - 1];
    var before := After(s, front);
    var f := before.slots[e.slot];
    assert Open(before.slots, before.maxi, f);
    StaleRequestDisagrees(before, e.slot, e.request, ViewOf(s, front, f), all);
    assert ViewOf(s, es, f) == ReceiveAll(ViewOf(s, front, f), To(Step(before, e).out, f));
    assert Open(After(s, es).slots, After(s, es).maxi, f);
  }

  /** The user with the empty name logs in, and the client of w, who is talking to it, hears
      nothing. */
  lemma NamelessLoginUnheard(s: State, f: int, password: string, w: string, v: View)
    requires FdsSound(s.users) && Unshared(s.users) && f > 0 && !Bound(s.users, f)
    requires LoginAccepted(s, "", password) && s.users[""].state == IDLE_STATE
    requires w in s.users && w != "" && Watches(s.users[w], "")
    ensures var t := DoLogin(s, f, "", password);
      && t.s.users == s.users["" := s.users[""].(fd := f)]
      && ReceiveAll(v, To(t.out, s.users[w].fd)) == v
  {
    LoginShape(s, f, "", password);
    UnboundMeansAbsent(s.users, f);
    var u := s.users[""];
    WelcomeTells(v, LoginOk("", password, u.role, ""), Flushed(StoredFor(s.db, "")),
                 NoticesFrom(s.users["" := u.(fd := f)], f, true), f, s.users[w].fd);
  }

  lemma NamelessCloseUnheard(s: State, f: int, w: string, v: View)
    requires RoomsSound(s.rooms) && Bound(s.users, f) && First(s.users, f) == "" && f > 0
    requires w in s.users && w != "" && Watches(s.users[w], "")
    ensures var t := Disconnect(s, f);
      && t.s.users == s.users["" := s.users[""].(state := IDLE_STATE, fd := OFFLINE)]
      && ReceiveAll(v, To(t.out, s.users[w].fd)) == v
  {
    SwitchOffUsers(s, f);
    DisconnectTells(s, f, s.users[w].fd, v);
  }

  /** The presence of the user with the empty name changes, and w's flag does not. */
  lemma UnheardIsWrong(users: map<string, User>, after: map<string, User>, w: string, v: View)
    requires w in users && w != "" && Watches(users[w], "") && w in after && after[w] == users[w]
    requires Agrees(users, users[w].fd, v, true) && Online(after, "") != Online(users, "")
    ensures !Agrees(after, users[w].fd, v, true)
  {
    assert Fits(v, users[w], users, true);
    assert !Fits(v, after[w], after, true);
  }

  /** Either way everybody else stays as they are. */
  lemma MissedStep(s: State, e: Event, w: string, v: View)
    requires Sound(s) && Unshared(s.users) && Enabled(s, e) && Guarded(s, e) && FindsIdle(s, e)
    requires MissesNameless(s, e) && w in s.users && w != "" && Watches(s.users[w], "")
    ensures var t := Step(s, e);
      && w in t.s.users && t.s.users[w] == s.users[w] && Online(t.s.users, "") != Online(s.users, "")
      && ReceiveAll(v, To(t.out, s.users[w].fd)) == v
  {
    hide DoLogin, Disconnect, ReceiveAll, To;
    if e.Packet? {
      NamelessLoginUnheard(s, s.slots[e.slot], e.request.password, w, v);
    } else {
      NamelessCloseUnheard(s, s.slots[e.slot], w, v);
    }
  }

  lemma StaysOpen(s: State, e: Event, w: string)
    requires Sound(s) && InSession(s) && Enabled(s, e) && Guarded(s, e)
    requires w in s.users && s.users[w].fd > 0 && w in Step(s, e).s.users && Step(s, e).s.users[w] == s.users[w]
    ensures Open(Step(s, e).s.slots, Step(s, e).s.maxi, s.users[w].fd)
  {
    hide Step;
    StepKeepsSession(s, e);
  }

  lemma MissedStepDisagrees(s: State, e: Event, w: string, v: View)
    requires Sound(s) && InSession(s) && Enabled(s, e) && Guarded(s, e) && FindsIdle(s, e)
    requires MissesNameless(s, e) && w in s.users && w != "" && Watches(s.users[w], "")
    requires Agrees(s.users, s.users[w].fd, v, true)
    ensures var t, g := Step(s, e), s.users[w].fd;
      Open(t.s.slots, t.s.maxi, g) && e != Accept(g) && !Agrees(t.s.users, g, ReceiveAll(v, To(t.out, g)), true)
  {
    hide Agrees, Step, Guarded;
    MissedStep(s, e, w, v);
    UnheardIsWrong(s.users, Step(s, e).s.users, w, v);
    StaysOpen(s, e, w);
  }

  lemma NamelessStepDisagrees(s: State, es: seq<Event>)
    requires es != [] && Legal(s, es)
    requires var front, e := es[..|es| - 1], es[|es| - 1];
             var before := After(s, front);
             && Sound(before) && InSession(before) && AllAgree(s, front, true)
             && Guarded(before, e) && FindsIdle(before, e) && MissesNameless(before, e)
    ensures !AllAgree(s, es, true)
  {
    hide Sound, Agrees, Step, Guarded, FindsIdle;
    var front, e := es[..|es| - 1], es[|es| - 1];
    var before := After(s, front);
    var w :| w in before.users && w != "" && Watches(before.users[w], "");
    var g := before.users[w].fd;
    assert Open(before.slots, before.maxi, g);
    MissedStepDisagrees(before, e, w, ViewOf(s, front, g));
    assert ViewOf(s, es, g) == ReceiveAll(ViewOf(s, front, g), To(Step(before, e).out, g));
  }

  lemma {:induction false} DisciplinedIsLegal(s: State, es: seq<Event>)
    requires Disciplined(s, es)
    ensures Legal(s, es)
  {
    if es != [] { DisciplinedIsLegal(s, es[..|es| - 1]); }
  }

  /** Every login finds its user idle and, if all partners are asked about, the user with the
      empty name neither comes nor goes while somebody is talking to it. */
  ghost predicate NothingUnheard(s: State, es: seq<Event>, all: bool) {
    LoginsFindIdle(s, es) && (all ==> NeverMissesNameless(s, es))
  }

  lemma RunIsGuarded(s: State, es: seq<Event>)
    requires Sound(s) && NobodyOnline(s) && (Disciplined(s, es) || GuardedRun(s, es)) && LoginsFindIdle(s, es)
    ensures GuardedRun(s, es)
  {
    if Disciplined(s, es) { PoliteRunsAreGuarded(s, es); }
  }

  lemma RunIsLegal(s: State, es: seq<Event>)
    requires Disciplined(s, es) || GuardedRun(s, es)
    ensures Legal(s, es)
  {
    if Disciplined(s, es) { DisciplinedIsLegal(s, es); } else { GuardedIsLegal(s, es); }
  }

  lemma LastStepDisagrees(s: State, es: seq<Event>, all: bool)
    requires Sound(s) && NobodyOnline(s) && StatesKnown(s.users)
    requires es != [] && (Disciplined(s, es) || GuardedRun(s, es))
    requires NothingUnheard(s, es[..|es| - 1], all) && !NothingUnheard(s, es, all)
    ensures !AllAgree(s, es, all)
  {
    hide AllAgree, Sound, StatesKnown, Guarded, InSession;
    var front := es[..|es| - 1];
    RunIsLegal(s, es);
    RunIsGuarded(s, front);
    GuardedAgree(s, front, all);
    AlwaysInSession(s, front);
    StatesStayKnown(s, front);
    if FindsIdle(After(s, front), es[|es| - 1]) {
      RunIsGuarded(s, es);
      NamelessStepDisagrees(s, es);
    } else {
      StaleStepDisagrees(s, es, all);
    }
  }

  /** Exactly then: the flags of all connected clients are true throughout a run, of polite
      clients or of regime B, if and only if nothing goes unheard. */
  lemma {:induction false} FlagsTrueIff(s: State, es: seq<Event>, all: bool)
    requires Sound(s) && NobodyOnline(s) && StatesKnown(s.users) && (Disciplined(s, es) || GuardedRun(s, es))
    ensures AlwaysAgree(s, es, all) <==> NothingUnheard(s, es, all)
  {
    if es == [] {
      FreshAgrees(s, all);
    } else {
      FlagsTrueIff(s, es[..|es| - 1], all);
      if NothingUnheard(s, es, all) {
        RunIsGuarded(s, es);
        GuardedAgree(s, es, all);
      } else if NothingUnheard(s, es[..|es| - 1], all) {
        LastStepDisagrees(s, es, all);
      }
    }
    hide AllAgree, Sound, StatesKnown, After, FindsIdle, MissesNameless;
  }
}
