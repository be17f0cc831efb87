/** What every run of regime B guarantees, and every run of polite clients. */
module SessionTheorems {
  import opened RoomValues
  import opened Tables
  import opened Chat
  import opened Mirror
  import opened Safety
  import opened Sessions
  import opened Wire
  import opened Clients
  import opened Delivery

  /** Somebody on descriptor g is in room k. */
  lemma SeatedIffMember(s: State, g: int, k: string)
    requires InSession(s) && k in s.rooms
    ensures Seated(s.users, g, k) <==> g in s.rooms[k].members
  {
    if Seated(s.users, g, k) {
      var u :| u in s.users && s.users[u].fd == g && s.users[u].state == Status(IN_ROOM, k);
      assert Placed(s.users[u], s.rooms);
    }
  }

  lemma AgreementAt(t: State, k: string, f: int)
    requires Sound(t) && InSession(t)
    ensures k in t.rooms ==>
      && (f in t.rooms[k].members <==>
            f > 0 && exists u :: u in t.users && t.users[u].fd == f && t.users[u].state == Status(IN_ROOM, k))
    ensures forall u :: u in t.users && t.users[u].fd != OFFLINE && t.users[u].state.kind == IN_ROOM ==>
              t.users[u].state.name in t.rooms
  {
    if k in t.rooms { SeatedIffMember(t, f, k); }
    assert forall u :: u in t.users ==> Placed(t.users[u], t.rooms);
  }

  /** Rooms and users agree after every event of a run if and only if the run is guarded: no
      accepted login comes from a descriptor somebody is bound to or finds the user's room missing or
      full, and no granted `withh` or `joinn` comes from inside a room. Then descriptor f is in room
      k's member array exactly when a user bound to f is in room k, and that user is the only one
      bound to f. The room an online user is in exists under its own id. Without a restart whoever
      is offline is idle. */
  lemma RoomsMatchUsers(s: State, es: seq<Event>, k: string, f: int)
    requires Sound(s) && NobodyOnline(s) && Legal(s, es)
    ensures AlwaysMatched(s, es) <==> GuardedRun(s, es)
    ensures GuardedRun(s, es) ==>
      var t := After(s, es);
      && (k in t.rooms ==>
            && t.rooms[k].id == k
            && (f in t.rooms[k].members <==>
                  f > 0 && exists u :: u in t.users && t.users[u].fd == f && t.users[u].state == Status(IN_ROOM, k))
            && |t.rooms[k].members| <= t.rooms[k].capacity && Distinct(t.rooms[k].members))
      && (forall u :: u in t.users && t.users[u].fd > 0 && t.users[u].state.kind == IN_ROOM ==>
            t.users[u].state.name in t.rooms)
      && (forall u, v :: u in t.users && v in t.users && t.users[u].fd == t.users[v].fd > 0 ==> u == v)
    ensures GuardedRun(s, es) && NoRestart(es) && OfflineIdle(s.users) ==>
      var t := After(s, es);
      && OfflineIdle(t.users)
      && (forall u :: u in t.users && t.users[u].state.kind == IN_ROOM ==> t.users[u].state.name in t.rooms)
  {
    MatchedIffGuarded(s, es);
    if GuardedRun(s, es) {
      AlwaysInSession(s, es);
      AgreementAt(After(s, es), k, f);
      if NoRestart(es) && OfflineIdle(s.users) { OfflineStaysIdle(s, es); }
    }
    hide AlwaysMatched, GuardedRun, After;
  }

  /** Regime B one event at a time. */
  lemma GuardedRuns(s: State, es: seq<Event>, e: Event)
    requires Enabled(After(s, es), e)
    ensures GuardedRun(s, []) && (GuardedRun(s, es) ==> Legal(s, es))
    ensures
      var t := After(s, es);
      var outside := e.Packet? ==>
        forall u :: FirstOn(t.users, t.slots[e.slot], u) ==> t.users[u].state.kind != 2;
      var guarded :=
        match e
        case Packet(slot, Login(name, password)) =>
          name in t.users && t.users[name].fd <= 0 && t.users[name].password == password ==>
            && (forall u :: u in t.users ==> t.users[u].fd != t.slots[slot])
            && (t.users[name].state.kind == 2 ==>
                  && t.users[name].state.name in t.rooms
                  && |t.rooms[t.users[name].state.name].members| < t.rooms[t.users[name].state.name].capacity)
        case Packet(slot, With(name)) => name in t.users && t.users[name].fd != t.slots[slot] ==> outside
        case Packet(slot, Join(room)) =>
          (&& room in t.rooms && |t.rooms[room].members| < t.rooms[room].capacity
           && t.slots[slot] !in t.rooms[room].members) ==> outside
        case _ => true;
      GuardedRun(s, es + [e]) <==> GuardedRun(s, es) && guarded
  {
    assert (es + [e])[..|es|] == es;
    if GuardedRun(s, es) { GuardedIsLegal(s, es); }
    if e.Packet? {
      var t := After(s, es);
      var f := t.slots[e.slot];
      BoundIs(t.users, f);
      forall u ensures FirstOn(t.users, f, u) <==> Bound(t.users, f) && First(t.users, f) == u {
        FirstIs(t.users, f, u);
      }
    }
    hide FirstOn, After, Legal, First;
  }

  /** And runs of polite clients. */
  lemma PoliteRuns(s: State, es: seq<Event>, e: Event)
    requires Enabled(After(s, es), e)
    ensures Disciplined(s, []) && (Disciplined(s, es) ==> Legal(s, es))
    ensures
      Disciplined(s, es + [e]) <==> Disciplined(s, es) && (e.Packet? ==>
        var v := ViewOf(s, es, After(s, es).slots[e.slot]);
        && (e.request.Login? ==> !v.loggedIn)
        && (e.request.With? || e.request.Join? ==> !v.withUser && !v.inRoom))
  {
    assert (es + [e])[..|es|] == es;
    if Disciplined(s, es) { DisciplinedIsLegal(s, es); }
    hide After, ViewOf, Legal;
  }

  /** Agreement read the other way: a descriptor is in a room's array exactly when somebody bound to
      it is in that room, online users' rooms exist, and no two online users share a descriptor. */
  lemma MatchedIs(t: State)
    requires FdsSound(t.users)
    ensures Matched(t) <==>
      && (forall k, f :: k in t.rooms ==>
            (f in t.rooms[k].members <==>
               f > 0 && exists u :: u in t.users && t.users[u].fd == f && t.users[u].state == Status(2, k)))
      && (forall u :: u in t.users && t.users[u].fd > 0 && t.users[u].state.kind == 2 ==>
            t.users[u].state.name in t.rooms)
      && (forall u, v :: u in t.users && v in t.users && t.users[u].fd == t.users[v].fd > 0 ==> u == v)
  {
    forall k, f | Matched(t) && k in t.rooms ensures f in t.rooms[k].members <==> Seated(t.users, f, k) {
      if Seated(t.users, f, k) {
        var u :| u in t.users && t.users[u].fd == f && t.users[u].state == Status(IN_ROOM, k);
        assert Placed(t.users[u], t.rooms);
      }
    }
    if Matched(t) {
      forall u | u in t.users ensures Placed(t.users[u], t.rooms) { }
    } else if forall k, f :: k in t.rooms ==> (f in t.rooms[k].members <==> Seated(t.users, f, k)) {
      assert AllSeated(t.users, t.rooms);
    }
  }

  lemma PresenceAt(t: State, u: string, v: string, view: View, all: bool)
    requires Online(t.users, u) && t.users[u].state == Status(WITH_USER, v) && (v == "" ==> all)
    requires Agrees(t.users, t.users[u].fd, view, all)
    ensures view.partnerOnline == Online(t.users, v)
  {
    assert Fits(view, t.users[u], t.users, all);
  }

  /** A user talking to v never is v, and the presence flag of that user's client says whether
      v is online now. (Nobody announces the user with the empty name, if there is one: for it,
      this holds as long as it neither comes nor goes while somebody is talking to it.) */
  lemma PresenceIsTrue(s: State, es: seq<Event>, u: string, v: string)
    requires Sound(s) && NobodyOnline(s) && GuardedRun(s, es) && LoginsFindIdle(s, es)
    requires var t := After(s, es); Online(t.users, u) && t.users[u].state == Status(WITH_USER, v)
    ensures u != v
    ensures v != "" || "" !in s.users || NeverMissesNameless(s, es) ==>
              ViewOf(s, es, After(s, es).users[u].fd).partnerOnline == Online(After(s, es).users, v)
  {
    AlwaysInSession(s, es);
    GuardedIsLegal(s, es);
    PartnersAreOthers(s, es);
    var all := v == "" && "" in s.users;
    if all ==> NeverMissesNameless(s, es) {
      GuardedAgree(s, es, all);
      PresenceAt(After(s, es), u, v, ViewOf(s, es, After(s, es).users[u].fd), all);
    }
    hide GuardedRun, LoginsFindIdle, NeverMissesNameless, After, ViewOf;
  }

  lemma FlagsAt(t: State, u: string, view: View, all: bool)
    requires Online(t.users, u) && Agrees(t.users, t.users[u].fd, view, all)
    ensures view.loggedIn && (view.withUser <==> t.users[u].state.kind == 1)
    ensures view.inRoom <==> t.users[u].state.kind == 2
  {
    assert Fits(view, t.users[u], t.users, all);
  }

  /** The other three flags of the client on a descriptor f: with a user bound to f it is logged in,
      and with a user or in a room exactly as that user's state says; with none it is neither. */
  lemma FlagsAreTrue(s: State, es: seq<Event>, u: string, f: int)
    requires Sound(s) && NobodyOnline(s) && GuardedRun(s, es) && LoginsFindIdle(s, es)
    requires var t := After(s, es); exists i :: 1 <= i <= t.maxi && i < |t.slots| && t.slots[i] == f
    requires f > 0
    ensures var t, view := After(s, es), ViewOf(s, es, f);
      && (u in t.users && t.users[u].fd == f ==>
            && view.loggedIn && (view.withUser <==> t.users[u].state.kind == 1)
            && (view.inRoom <==> t.users[u].state.kind == 2))
      && ((forall v :: v in t.users ==> t.users[v].fd != f) ==> !view.loggedIn && !view.withUser && !view.inRoom)
  {
    var t := After(s, es);
    GuardedAgree(s, es, false);
    assert Open(t.slots, t.maxi, f);
    BoundIs(t.users, f);
    if u in t.users && t.users[u].fd == f { FlagsAt(t, u, ViewOf(s, es, f), false); }
    hide GuardedRun, LoginsFindIdle, After, ViewOf;
  }

  predicate OnlySlot(s: State, f: int, i: int) {
    && 1 <= i <= s.maxi && i < |s.slots| && s.slots[i] == f
    && forall j :: 0 <= j < |s.slots| && s.slots[j] == f ==> j == i
  }

  lemma AcceptOpens(t: State, f: int)
    requires Sound(t) && f > 0 && Enabled(t, Accept(f))
    ensures !Open(t.slots, t.maxi, f)
    ensures var after := Step(t, Accept(f)).s;
            Open(after.slots, after.maxi, f) && after.users == t.users && after.rooms == t.rooms
  {
    var after := Step(t, Accept(f)).s;
    var i := FreeSlot(t.slots, 1);
    assert after.slots[i] == f && 1 <= i <= after.maxi;
  }

  /** Every descriptor bound to a user or held in a room is open in exactly one slot, so a
      descriptor that accept returns afresh starts bound to nobody and in no room. */
  lemma DescriptorReuse(s: State, es: seq<Event>, f: int)
    requires Sound(s) && NobodyOnline(s) && GuardedRun(s, es) && f > 0
    ensures var t := After(s, es);
      Bound(t.users, f) || (exists k :: k in t.rooms && f in t.rooms[k].members) ==> exists i :: OnlySlot(t, f, i)
    ensures Enabled(After(s, es), Accept(f)) ==>
      var t := After(s, es + [Accept(f)]);
      && Open(t.slots, t.maxi, f)
      && !Bound(t.users, f)
      && (forall k :: k in t.rooms ==> f !in t.rooms[k].members)
      && ViewOf(s, es + [Accept(f)], f) == FRESH_VIEW
  {
    AlwaysInSession(s, es);
    var t := After(s, es);
    if Open(t.slots, t.maxi, f) {
      var i :| 1 <= i <= t.maxi && i < |t.slots| && t.slots[i] == f;
      assert OnlySlot(t, f, i);
    } else {
      ClosedMeansUnused(t, f);
    }
    if Enabled(t, Accept(f)) {
      AcceptOpens(t, f);
      ClosedMeansUnused(t, f);
      assert (es + [Accept(f)])[..|es|] == es;
    }
  }

  lemma JoinOut(t: State, f: int, room: string)
    requires RoomsSound(t.rooms) && Bound(t.users, f)
    ensures Dispatch(t, f, Join(room)).out ==
      [Write(f, if room !in t.rooms || |t.rooms[room].members| == t.rooms[room].capacity || f in t.rooms[room].members
                then JoinFail else JoinOk)]
  {
  }

  /** A join is refused exactly when the room is missing or full or the user is in it already. The
      last never happens to a user who is in no room, as a client's flags see to. */
  lemma JoinAnswer(s: State, es: seq<Event>, slot: nat, room: string)
    requires Sound(s) && NobodyOnline(s) && GuardedRun(s, es) && Enabled(After(s, es), Packet(slot, Join(room)))
    requires Bound(After(s, es).users, After(s, es).slots[slot])
    ensures var t := After(s, es);
      var f := t.slots[slot];
      var x := t.users[First(t.users, f)];
      && Step(t, Packet(slot, Join(room))).out ==
           [Write(f, if || room !in t.rooms
                        || |t.rooms[room].members| == t.rooms[room].capacity
                        || x.state == Status(IN_ROOM, room)
                     then JoinFail else JoinOk)]
      && (room in t.rooms && AddCode(t.rooms[room], f) == ALREADY_IN_ROOM ==> x.state == Status(IN_ROOM, room))
  {
    AlwaysInSession(s, es);
    var t := After(s, es);
    var f := t.slots[slot];
    if room in t.rooms { MemberIffInRoom(t, room, First(t.users, f)); }
    JoinOut(t, f, room);
  }

  /** Without a restart, login's branch for a refused re-add is never taken, whatever the
      clients send. */
  lemma LoginNeverStuck(s: State, es: seq<Event>, f: int, name: string, password: string)
    requires Sound(s) && OfflineIdle(s.users) && Legal(s, es) && NoRestart(es)
    requires LoginAccepted(After(s, es), name, password)
    ensures !ReAddRefused(After(s, es), f, name)
  {
    AlwaysSound(s, es);
    OfflineStaysIdle(s, es);
  }

  // Who hears what in a room.

  /** A room message is written once to each descriptor of a user in the room, the sender's
      included, and nothing is written to any other. */
  lemma RoomMessageOnce(s: State, f: int, text: string, time: int, g: int)
    requires Sound(s) && InSession(s) && f > 0 && Bound(s.users, f)
    requires s.users[First(s.users, f)].state.kind == IN_ROOM
    ensures var u := First(s.users, f);
            To(DoSend(s, f, text, time).out, g) ==
            (if Seated(s.users, g, s.users[u].state.name) then [Chat(Mail(u, text, time))] else [])
  {
    var u := First(s.users, f);
    OwnerIs(s.users, u);
    assert Placed(s.users[u], s.rooms);
    var room := s.users[u].state.name;
    SeatedIffMember(s, g, room);
    ToBroadcast(s.rooms[room].members, Chat(Mail(u, text, time)), g);
  }

  /** Whoever leaves a room is told so once and hears no notice; everyone else in the room gets
      the notice once; nobody else gets anything. */
  lemma LeavingIsAnnouncedOnce(s: State, f: int, g: int)
    requires Sound(s) && InSession(s) && f > 0 && Bound(s.users, f)
    requires var st := s.users[First(s.users, f)].state; st.kind == IN_ROOM && st.name != ""
    ensures var u := First(s.users, f);
            To(DoTerminate(s, f).out, g) ==
            (if g == f then [Terminated] else if Seated(s.users, g, s.users[u].state.name) then [Left(u)] else [])
  {
    var u := First(s.users, f);
    assert Placed(s.users[u], s.rooms);
    var room := s.users[u].state.name;
    var gone := LeaveRoom(s, f, room, u);
    SeatedIffMember(s, g, room);
    LeaveWrites(s, f, room, u, g);
    ToConcat(gone.out, [Write(f, Terminated)], g);
  }

  lemma SwitchOffIsAnnouncedOnce(s: State, f: int, g: int)
    requires Sound(s) && InSession(s) && f > 0 && Bound(s.users, f) && InSomeRoom(s.users, f)
    ensures var u := First(s.users, f);
            To(SwitchOff(s, f).out, g) ==
            (if g != f && Seated(s.users, g, s.users[u].state.name) then [Left(u)] else [])
  {
    var u := First(s.users, f);
    assert Placed(s.users[u], s.rooms);
    var room := s.users[u].state.name;
    SeatedIffMember(s, g, room);
    LeaveWrites(s, f, room, u, g);
  }

  /** Somebody on descriptor g is talking to u. */
  predicate Watched(users: map<string, User>, u: string, g: int) {
    exists w :: w in users && users[w].fd == g > 0 && users[w].state == Status(1, u)
  }

  /** A connection closes: each descriptor of a user talking to the one who goes gets one notice
      that u is offline, and each other descriptor of a user in u's room one that u left. */
  lemma CloseIsAnnouncedOnce(s: State, f: int, g: int)
    requires Sound(s) && InSession(s) && f > 0 && g > 0 && Bound(s.users, f)
    ensures var u := First(s.users, f);
      To(Disconnect(s, f).out, g) ==
        (if u != "" && Watched(s.users, u, g) then [Party(false)] else []) +
        (if InSomeRoom(s.users, f) && g != f && Seated(s.users, g, s.users[u].state.name) then [Left(u)] else [])
  {
    hide Notices;
    var u := First(s.users, f);
    ToConcat(NoticesFrom(s.users, f, false), SwitchOff(s, f).out, g);
    ToNotices(s.users, s.users.Keys, u, false, g);
    if InSomeRoom(s.users, f) { SwitchOffIsAnnouncedOnce(s, f, g); }
  }

  // When texts are not empty.

  predicate NoEmptyText(db: Database) {
    forall i :: 0 <= i < |db.messages| ==> db.messages[i].mail.text != ""
  }

  predicate SendsText(e: Event) {
    e.Packet? && e.request.Send? ==> e.request.text != ""
  }

  lemma {:induction false} SelectKeepsTexts(messages: seq<StoredMail>, v: string)
    requires forall i :: 0 <= i < |messages| ==> messages[i].mail.text != ""
    ensures AllTexts(Select(messages, v))
  {
    if messages != [] { SelectKeepsTexts(messages[..|messages| - 1], v); }
  }

  lemma RequestKeepsTexts(s: State, f: int, r: Request, after: seq<StoredMail>)
    requires (Bound(s.users, f) || r.Login?) && MessagesStep(s, f, r, after)
    requires NoEmptyText(s.db) && (r.Send? ==> r.text != "")
    ensures forall i :: 0 <= i < |after| ==> after[i].mail.text != ""
  {
    if r.Login? && after != s.db.messages {
      var u :| after == Others(s.db.messages, u);
      OthersAreKept(s.db.messages, u);
      forall i | 0 <= i < |after| ensures after[i].mail.text != "" { assert after[i] in s.db.messages; }
    }
  }

  lemma StepKeepsTexts(s: State, e: Event)
    requires Enabled(s, e) && NoEmptyText(s.db) && SendsText(e)
    ensures NoEmptyText(Step(s, e).s.db)
  {
    if e.Packet? && (Bound(s.users, s.slots[e.slot]) || e.request.Login?) {
      DispatchMessages(s, s.slots[e.slot], e.request);
      RequestKeepsTexts(s, s.slots[e.slot], e.request, Step(s, e).s.db.messages);
    }
  }

  lemma {:induction false} TextsStayNonEmpty(s: State, es: seq<Event>, v: string)
    requires GuardedRun(s, es) && NoEmptyText(s.db) && forall i :: 0 <= i < |es| ==> SendsText(es[i])
    ensures NoEmptyText(After(s, es).db) && CleanFlushes(s, es, v)
  {
    if es != [] {
      var front := es[..|es| - 1];
      TextsStayNonEmpty(s, front, v);
      SelectKeepsTexts(After(s, front).db.messages, v);
      assert SendsText(es[|es| - 1]);
      StepKeepsTexts(After(s, front), es[|es| - 1]);
    }
  }

  /** So when nobody sends an empty text, every message and every notice is delivered or held
      exactly once and in order, across any number of offline periods. */
  lemma ExactlyOnceWithTexts(s: State, es: seq<Event>, v: string)
    requires Sound(s) && NobodyOnline(s) && GuardedRun(s, es)
    requires NoEmptyText(s.db) && forall i :: 0 <= i < |es| ==> SendsText(es[i])
    ensures Legal(s, es)
    ensures Held(s, v) + DueOver(s, es, v) == ReceivedOver(s, es, v) + Held(After(s, es), v)
  {
    ExactlyOnce(s, es, v);
    TextsStayNonEmpty(s, es, v);
  }

  /** And when somebody does: an empty text at the head of a store makes the login flush deliver
      nothing and discard the whole store. */
  lemma EmptyTextLosesStore(s: State, e: Event, v: string)
    requires Sound(s) && InSession(s) && NoneHeldOnline(s) && Enabled(s, e) && Guarded(s, e) && LogsIn(s, e, v)
    requires var mails := StoredFor(s.db, v); mails != [] && mails[0].text == ""
    ensures Arrived(Step(s, e), v) == [] && Held(Step(s, e).s, v) == [] && Held(s, v) != []
  {
    StepBalances(s, e, v);
    var mails := StoredFor(s.db, v);
    assert mails[0..] == mails;
    ChatsLength(mails);
    var a, d, h := Arrived(Step(s, e), v), Dropped(s, e, v), Held(Step(s, e).s, v);
    assert |a + d + h| == |d|;
  }

  lemma LeaveHasNoStrayPosts(s: State, u: string, g: int)
    requires Sound(s) && InSession(s) && Online(s.users, u) && s.users[u].state.kind == IN_ROOM
    requires forall w :: w in s.users && w != u ==> s.users[w].fd != g
    ensures To(LeaveRoom(s, s.users[u].fd, s.users[u].state.name, u).out, g) == []
  {
    var f, room := s.users[u].fd, s.users[u].state.name;
    assert Placed(s.users[u], s.rooms);
    LeaveWrites(s, f, room, u, g);
    if g != f { StrangerInNoRoom(s, g); }
  }

  lemma SwitchOffHasNoStrayPosts(s: State, f: int, g: int)
    requires Sound(s) && InSession(s) && f > 0 && Bound(s.users, f)
    requires forall w :: w in s.users && w != First(s.users, f) ==> s.users[w].fd != g
    ensures To(SwitchOff(s, f).out, g) == []
  {
    var u := First(s.users, f);
    if s.users[u].state.kind == IN_ROOM { LeaveHasNoStrayPosts(s, u, g); }
  }

  lemma DisconnectHasNoStrayPosts(s: State, f: int, g: int)
    requires Sound(s) && InSession(s) && f > 0 && g > 0
    requires forall w :: w in Disconnect(s, f).s.users ==> Disconnect(s, f).s.users[w].fd != g
    ensures Posts(To(Disconnect(s, f).out, g)) == []
  {
    if Bound(s.users, f) {
      var u := First(s.users, f);
      SwitchOffUsers(s, f);
      assert forall w :: w in s.users && w != u ==> Disconnect(s, f).s.users[w] == s.users[w];
      NoticesAreNoPosts(s.users, u, false, g);
      SwitchOffHasNoStrayPosts(s, f, g);
      PostsOfTwo(NoticesFrom(s.users, f, false), SwitchOff(s, f).out, g);
    }
  }

  lemma SendHasNoStrayPosts(s: State, f: int, text: string, time: int, g: int)
    requires Sound(s) && InSession(s) && f > 0 && Bound(s.users, f)
    requires forall w :: w in s.users ==> s.users[w].fd != g
    ensures To(DoSend(s, f, text, time).out, g) == []
  {
    var u := Last(s.users, f);
    var room := s.users[u].state.name;
    if room in s.rooms {
      ToBroadcast(s.rooms[room].members, Chat(Mail(u, text, time)), g);
      StrangerInNoRoom(s, g);
    }
  }

  lemma TerminateHasNoStrayPosts(s: State, f: int, g: int)
    requires Sound(s) && InSession(s) && f > 0 && Bound(s.users, f)
    requires forall w :: w in s.users ==> s.users[w].fd != g
    ensures Posts(To(DoTerminate(s, f).out, g)) == []
  {
    var u := First(s.users, f);
    if s.users[u].state.kind == IN_ROOM {
      LeaveHasNoStrayPosts(s, u, g);
      ToConcat(LeaveRoom(s, f, s.users[u].state.name, u).out, [Write(f, Terminated)], g);
    }
  }

  lemma LoginHasNoStrayPosts(s: State, f: int, name: string, password: string, g: int)
    requires Sound(s) && InSession(s) && f > 0 && RequestGuarded(s, f, Login(name, password)) && g > 0
    requires forall w :: w in DoLogin(s, f, name, password).s.users ==> DoLogin(s, f, name, password).s.users[w].fd != g
    ensures Posts(To(DoLogin(s, f, name, password).out, g)) == []
  {
    if LoginAccepted(s, name, password) {
      HomeIsNotRefused(s, f, name);
      LoginShape(s, f, name, password);
      var u := s.users[name];
      assert DoLogin(s, f, name, password).s.users[name].fd == f;
      WelcomeArrives(LoginOk(name, password, u.role, u.state.name), Flushed(StoredFor(s.db, name)),
                     s.users[name := u.(fd := f)], f, g);
    }
  }

  lemma DescriptorsStay(s: State, f: int, r: Request, after: map<string, User>)
    requires Bound(s.users, f) && (r.Send? || r.Terminate?) && UsersStep(s, f, r, after)
    ensures forall w :: w in s.users ==> w in after && after[w].fd == s.users[w].fd
  {
  }

  lemma RequestHasNoStrayPosts(s: State, f: int, r: Request, g: int)
    requires Sound(s) && InSession(s) && f > 0 && g > 0 && (r.Login? ==> RequestGuarded(s, f, r))
    requires forall w :: w in Dispatch(s, f, r).s.users ==> Dispatch(s, f, r).s.users[w].fd != g
    ensures Posts(To(Dispatch(s, f, r).out, g)) == []
  {
    hide DoLogin, DoWith, DoJoin, DoTerminate, DoSend;
    hide DoCreateUser, DoModifyUser, DoDeleteUser, DoCreateRoom, DoModifyRoom, DoDeleteRoom;
    if !Bound(s.users, f) && !r.Login? { AnswerIsNoPost(f, SendFail, g); }
    else if r.Login? {
      assert Dispatch(s, f, r) == DoLogin(s, f, r.name, r.password);
      LoginHasNoStrayPosts(s, f, r.name, r.password, g);
    }
    else if r.Send? || r.Terminate? {
      DispatchUsers(s, f, r);
      DescriptorsStay(s, f, r, Dispatch(s, f, r).s.users);
      if r.Send? { SendHasNoStrayPosts(s, f, r.text, r.time, g); } else { TerminateHasNoStrayPosts(s, f, g); }
    }
    else { OtherAnswersAreNoPosts(s, f, r, g); }
  }

  /** No message and no notice is ever written to a descriptor that nobody is bound to. */
  lemma NoStrayPosts(s: State, e: Event, g: int)
    requires Sound(s) && InSession(s) && Enabled(s, e) && Guarded(s, e) && g > 0
    requires !Bound(Step(s, e).s.users, g)
    ensures Posts(To(Step(s, e).out, g)) == []
  {
    StepKeepsSession(s, e);
    UnboundMeansAbsent(Step(s, e).s.users, g);
    match e
    case Accept(_) =>
    case Packet(slot, r) => RequestHasNoStrayPosts(s, s.slots[slot], r, g);
    case Hangup(slot) => DisconnectHasNoStrayPosts(s, s.slots[slot], g);
    case Restart(_) =>
  }
}
