/** The server as a state machine: one event of the poll loop is one step. */
module Chat {
  import opened NameOrder
  import opened RoomValues
  import opened Tables

  const POLL_SIZE := 35
  const ADMIN := 1
  const ORDINARY := 2
  const OFFLINE := -1

  /** An entry of `mapuser`: the key's other fields and the descriptor mapped to. */
  datatype User = User(password: string, role: int, state: Status, fd: int)

  datatype State = State(
    users: map<string, User>,
    rooms: map<string, RoomValue>,
    slots: seq<int>,
    maxi: int,
    db: Database)

  datatype Request =
    | Login(name: string, password: string)
    | With(name: string)
    | Join(room: string)
    | Send(text: string, time: int)
    | Terminate
    | CreateUser(name: string, password: string, role: int)
    | ModifyUser(name: string, password: string, role: int)
    | DeleteUser(name: string)
    | CreateRoom(room: string, capacity: int)
    | ModifyRoom(room: string, capacity: int)
    | DeleteRoom(room: string)
    | Listing
    | Other

  /** `slot` is the index the poll loop has reached. `Accept(-1)` is a failed accept. */
  datatype Event =
    | Accept(fd: int)
    | Packet(slot: nat, request: Request)
    | Hangup(slot: nat)
    | Restart(listenfd: int)

  /** What the server writes to a client. */
  datatype Reply =
    | LoginOk(name: string, password: string, role: int, partner: string)
    | LoginFail
    | WithOk(online: bool)
    | WithFail
    | JoinOk
    | JoinFail
    | Terminated
    | TerminateFail
    | Party(online: bool)
    | Chat(mail: Mail)
    | Left(who: string)
    | CreateOk | CreateFail
    | ModifyOk | ModifyFail
    | DeleteOk | DeleteFail
    | SendFail
    | List

  datatype Write = Write(fd: int, reply: Reply)

  datatype Effect = Effect(s: State, out: seq<Write>)

  // Lookups.

  function Holders(users: map<string, User>, f: int): set<string> {
    set u | u in users && users[u].fd == f
  }

  predicate Bound(users: map<string, User>, f: int) {
    Holders(users, f) != {}
  }

  /** The user a scan that stops at its first match finds. */
  ghost function First(users: map<string, User>, f: int): (u: string)
    requires Bound(users, f)
    ensures u in users && users[u].fd == f
  {
    Least(Holders(users, f))
  }

  /** The user a scan that runs to the end of the map is left with. */
  ghost function Last(users: map<string, User>, f: int): (u: string)
    requires Bound(users, f)
    ensures u in users && users[u].fd == f
  {
    Greatest(Holders(users, f))
  }

  /** u is bound to the descriptor, and no name before it in the order of the map is. */
  predicate FirstOn(users: map<string, User>, f: int, u: string) {
    u in users && users[u].fd == f && forall v :: v in users && users[v].fd == f && v != u ==> Precedes(u, v)
  }

  /** And no name after it. */
  predicate LastOn(users: map<string, User>, f: int, u: string) {
    u in users && users[u].fd == f && forall v :: v in users && users[v].fd == f && v != u ==> Precedes(v, u)
  }

  lemma FirstIs(users: map<string, User>, f: int, u: string)
    ensures FirstOn(users, f, u) <==> Bound(users, f) && First(users, f) == u
  {
    forall v ensures Less(u, v) <==> Precedes(u, v) { LessPrecedes(u, v); }
    hide Less, Precedes;
    var names := Holders(users, f);
    assert FirstOn(users, f, u) <==> IsLeast(u, names);
    if IsLeast(u, names) { ExtremesUnique(u, First(users, f), names); }
  }

  lemma LastIs(users: map<string, User>, f: int, u: string)
    ensures LastOn(users, f, u) <==> Bound(users, f) && Last(users, f) == u
  {
    forall v ensures Less(v, u) <==> Precedes(v, u) { LessPrecedes(v, u); }
    hide Less, Precedes;
    var names := Holders(users, f);
    assert LastOn(users, f, u) <==> IsGreatest(u, names);
    if IsGreatest(u, names) { ExtremesUnique(u, Last(users, f), names); }
  }

  lemma BoundIs(users: map<string, User>, f: int)
    ensures Bound(users, f) <==> exists u :: u in users && users[u].fd == f
  {
    if u :| u in users && users[u].fd == f { assert u in Holders(users, f); }
  }

  predicate Online(users: map<string, User>, name: string) {
    name in users && users[name].fd > 0
  }

  ghost predicate IsAdmin(users: map<string, User>, f: int) {
    Bound(users, f) && First(users, f) != "" && users[First(users, f)].role == ADMIN
  }

  // Sequences of writes.

  function Broadcast(members: seq<int>, r: Reply): seq<Write> {
    if members == [] then [] else [Write(members[0], r)] + Broadcast(members[1..], r)
  }

  predicate Watches(u: User, about: string) {
    u.fd > 0 && u.state.kind == WITH_USER && u.state.name == about
  }

  /** Presence notices go out in the order of the map. */
  ghost function Notices(users: map<string, User>, rest: set<string>, about: string, online: bool): seq<Write>
    requires rest <= users.Keys
    decreases |rest|
  {
    if rest == {} then []
    else
      var u := Least(rest);
      var later := Notices(users, rest - {u}, about, online);
      if Watches(users[u], about) then [Write(users[u].fd, Party(online))] + later else later
  }

  ghost function NoticesFrom(users: map<string, User>, f: int, online: bool): seq<Write>
    requires Bound(users, f)
  {
    var u := First(users, f);
    if u == "" then [] else Notices(users, users.Keys, u, online)
  }

  /** The part of a mail box the flush loop gets through: it stops at an empty text. */
  function Flushed(mails: seq<Mail>): (r: seq<Mail>)
    ensures |r| <= |mails|
  {
    if mails == [] || mails[0].text == "" then [] else [mails[0]] + Flushed(mails[1..])
  }

  function Chats(mails: seq<Mail>): seq<Reply> {
    if mails == [] then [] else [Chat(mails[0])] + Chats(mails[1..])
  }

  function WriteAll(f: int, rs: seq<Reply>): seq<Write> {
    if rs == [] then [] else [Write(f, rs[0])] + WriteAll(f, rs[1..])
  }

  // Slots.

  /** The first index from i on whose slot is free, or the length of the table. */
  function FreeSlot(slots: seq<int>, i: nat): (r: nat)
    requires i <= |slots|
    ensures i <= r <= |slots| && (r < |slots| ==> slots[r] < 0)
    ensures forall k :: i <= k < r ==> slots[k] >= 0
    decreases |slots| - i
  {
    if i == |slots| || slots[i] < 0 then i else FreeSlot(slots, i + 1)
  }

  // Handlers. Each takes the descriptor the packet came from.

  ghost function Answer(s: State, f: int, r: Reply): Effect {
    Effect(s, [Write(f, r)])
  }

  function PutState(users: map<string, User>, u: string, st: Status): map<string, User>
    requires u in users
  {
    users[u := users[u].(state := st)]
  }

  /** The role an account gets: whatever is not an administrator's is an ordinary user's. */
  function Granted(role: int): int {
    if role != ADMIN then ORDINARY else ADMIN
  }

  ghost function DoCreateUser(s: State, f: int, name: string, password: string, role: int): Effect {
    if !IsAdmin(s.users, f) || name in s.users || name == "" || password == "" then Answer(s, f, CreateFail)
    else
      Answer(s.(users := s.users[name := User(password, Granted(role), IDLE_STATE, OFFLINE)],
                db := Tables.InsertUser(s.db, name, password, Granted(role))), f, CreateOk)
  }

  ghost function DoDeleteUser(s: State, f: int, name: string): Effect {
    if !IsAdmin(s.users, f) || name !in s.users || s.users[name].fd > 0 || HaveOfflineMessage(s.db, name)
    then Answer(s, f, DeleteFail)
    else
      Answer(s.(users := s.users - {name}, db := Tables.DeleteUser(s.db, name)), f, DeleteOk)
  }

  ghost function DoModifyUser(s: State, f: int, name: string, password: string, role: int): Effect {
    if !IsAdmin(s.users, f) || name !in s.users || password == "" || s.users[name].fd > 0
    then Answer(s, f, ModifyFail)
    else
      Answer(s.(users := s.users[name := s.users[name].(password := password, role := Granted(role))],
                db := Tables.ModifyUser(s.db, name, password, Granted(role))), f, ModifyOk)
  }

  ghost function DoWith(s: State, f: int, name: string): Effect
    requires Bound(s.users, f)
  {
    if name !in s.users || s.users[name].fd == f then Answer(s, f, WithFail)
    else
      var u, st := First(s.users, f), Status(WITH_USER, name);
      Answer(s.(users := PutState(s.users, u, st), db := SetState(s.db, u, st)),
             f, WithOk(s.users[name].fd >= 0))
  }

  /** The sender is the last user bound to the descriptor: this scan has no break. */
  ghost function DoSend(s: State, f: int, text: string, time: int): Effect
    requires Bound(s.users, f)
  {
    var u := Last(s.users, f);
    var st, mail := s.users[u].state, Mail(u, text, time);
    if st.kind == WITH_USER then
      if st.name !in s.users then Effect(s, [])
      else if s.users[st.name].fd < 0 then Effect(s.(db := SaveMessage(s.db, st.name, mail)), [])
      else Effect(s, [Write(s.users[st.name].fd, Chat(mail))])
    else if st.kind == IN_ROOM && st.name in s.rooms then
      Effect(s, Broadcast(s.rooms[st.name].members, Chat(mail)))
    else Effect(s, [])
  }

  /** Takes the descriptor out of the room and tells those who stay. */
  function LeaveRoom(s: State, f: int, room: string, who: string): Effect {
    if room !in s.rooms then Effect(s, [])
    else
      var left := Remove(s.rooms[room], f);
      Effect(s.(rooms := s.rooms[room := left]), Broadcast(left.members, Left(who)))
  }

  ghost function DoTerminate(s: State, f: int): Effect
    requires Bound(s.users, f)
  {
    var u := First(s.users, f);
    var st := s.users[u].state;
    if st.name == "" then Answer(s, f, TerminateFail)
    else
      var gone := if st.kind == IN_ROOM then LeaveRoom(s, f, st.name, u) else Effect(s, []);
      Effect(gone.s.(users := PutState(gone.s.users, u, IDLE_STATE), db := ClearState(gone.s.db, u)),
             gone.out + [Write(f, Terminated)])
  }

  ghost function DoJoin(s: State, f: int, room: string): Effect
    requires Bound(s.users, f)
  {
    if room !in s.rooms || AddCode(s.rooms[room], f) < 0 then Answer(s, f, JoinFail)
    else
      var u, st := First(s.users, f), Status(IN_ROOM, room);
      Answer(s.(users := PutState(s.users, u, st),
                rooms := s.rooms[room := Add(s.rooms[room], f)],
                db := SetState(ClearState(s.db, u), u, st)), f, JoinOk)
  }

  /** Login's re-add to the room the user was in, which may be refused. */
  predicate ReAddRefused(s: State, f: int, name: string)
    requires name in s.users
  {
    var st := s.users[name].state;
    st.kind == IN_ROOM && st.name in s.rooms && AddCode(s.rooms[st.name], f) < 0
  }

  predicate LoginAccepted(s: State, name: string, password: string) {
    name in s.users && s.users[name].fd <= 0 && s.users[name].password == password
  }

  /** The user bound to the descriptor, and back in the room it was in unless refused. */
  function Rejoined(s: State, f: int, name: string): State
    requires name in s.users
  {
    var st := s.users[name].state;
    var bound := s.(users := s.users[name := s.users[name].(fd := f)]);
    if st.kind == IN_ROOM && st.name in s.rooms then bound.(rooms := s.rooms[st.name := Add(s.rooms[st.name], f)])
    else bound
  }

  /** The reply, the flush of the mail box and the presence notices. */
  ghost function Welcome(s: State, f: int, reply: Reply): Effect
    requires Bound(s.users, f)
  {
    var u := First(s.users, f);
    var mails := StoredFor(s.db, u);
    Effect(if mails == [] then s else s.(db := DeleteMessages(s.db, u)),
           [Write(f, reply)] + WriteAll(f, Chats(Flushed(mails))) + NoticesFrom(s.users, f, true))
  }

  ghost function DoLogin(s: State, f: int, name: string, password: string): Effect {
    if !LoginAccepted(s, name, password) then Answer(s, f, LoginFail)
    else
      var u, back := s.users[name], Rejoined(s, f, name);
      if ReAddRefused(s, f, name) then Effect(back, [])
      else
        assert name in Holders(back.users, f);
        Welcome(back, f, LoginOk(name, u.password, u.role, u.state.name))
  }

  ghost function DoCreateRoom(s: State, f: int, room: string, capacity: int): Effect {
    if !IsAdmin(s.users, f) || room in s.rooms || capacity < 0 || room == "" then Answer(s, f, CreateFail)
    else
      Answer(s.(rooms := s.rooms[room := RoomValue(room, capacity, [])],
                db := InsertRoom(s.db, room, capacity)), f, CreateOk)
  }

  ghost predicate RoleOneOn(users: map<string, User>, f: int) {
    Bound(users, f) && users[First(users, f)].role == ADMIN
  }

  ghost function DoModifyRoom(s: State, f: int, room: string, capacity: int): Effect {
    if !RoleOneOn(s.users, f) || room !in s.rooms || capacity <= 0 || s.rooms[room].members != []
    then Answer(s, f, ModifyFail)
    else
      Answer(s.(rooms := s.rooms[room := SetCapacity(s.rooms[room].(id := room), capacity)],
                db := Tables.ModifyRoom(s.db, room, capacity)), f, ModifyOk)
  }

  ghost function DoDeleteRoom(s: State, f: int, room: string): Effect {
    if !RoleOneOn(s.users, f) || room !in s.rooms || s.rooms[room].members != []
    then Answer(s, f, DeleteFail)
    else
      Answer(s.(rooms := s.rooms - {room}, db := Tables.DeleteRoom(s.db, room)), f, DeleteOk)
  }

  /** The gate in front of every handler but Login, and the dispatch behind it. */
  ghost function Dispatch(s: State, f: int, r: Request): Effect {
    if !Bound(s.users, f) && !r.Login? then Answer(s, f, SendFail)
    else
      match r
      case Login(name, password) => DoLogin(s, f, name, password)
      case With(name) => DoWith(s, f, name)
      case Join(room) => DoJoin(s, f, room)
      case Send(text, time) => DoSend(s, f, text, time)
      case Terminate => DoTerminate(s, f)
      case CreateUser(name, password, role) => DoCreateUser(s, f, name, password, role)
      case ModifyUser(name, password, role) => DoModifyUser(s, f, name, password, role)
      case DeleteUser(name) => DoDeleteUser(s, f, name)
      case CreateRoom(room, capacity) => DoCreateRoom(s, f, room, capacity)
      case ModifyRoom(room, capacity) => DoModifyRoom(s, f, room, capacity)
      case DeleteRoom(room) => DoDeleteRoom(s, f, room)
      case Listing => Answer(s, f, List)
      case Other => Effect(s, [])
  }

  /** The user of a closed connection leaves its room and goes offline, idle. */
  ghost function SwitchOff(s: State, f: int): Effect
    requires Bound(s.users, f)
  {
    var u := First(s.users, f);
    var st := s.users[u].state;
    var gone := if st.kind == IN_ROOM then LeaveRoom(s, f, st.name, u) else Effect(s, []);
    Effect(gone.s.(users := gone.s.users[u := gone.s.users[u].(state := IDLE_STATE, fd := OFFLINE)],
                   db := ClearState(gone.s.db, u)),
           gone.out)
  }

  /** A closed connection: whoever watches is told before the user is switched off. */
  ghost function Disconnect(s: State, f: int): Effect {
    if !Bound(s.users, f) then Effect(s, [])
    else
      var off := SwitchOff(s, f);
      Effect(off.s, NoticesFrom(s.users, f, false) + off.out)
  }

  // Recovery of the maps from the tables.

  function Usable(capacity: int): int {
    if capacity < 0 then 0 else capacity
  }

  function UserOf(row: Row): User {
    User(row.password, row.role, Decode(ReadColumn(row.column)), OFFLINE)
  }

  function MapUser(db: Database): map<string, User> {
    map u | u in db.users :: UserOf(db.users[u])
  }

  function MapRoom(db: Database): map<string, RoomValue> {
    map k | k in db.rooms :: RoomValue(k, Usable(db.rooms[k]), [])
  }

  function Boot(db: Database, listenfd: int): State {
    State(MapUser(db), MapRoom(db), [listenfd] + seq(POLL_SIZE - 1, _ => -1), 0, db)
  }

  // Steps and runs.

  ghost function Step(s: State, e: Event): Effect {
    match e
    case Accept(fd) =>
      if |s.slots| == 0 then Effect(s, [])
      else
        var i := FreeSlot(s.slots, 1);
        if i == |s.slots| then Effect(s, [])
        else Effect(s.(slots := s.slots[i := fd], maxi := if i > s.maxi then i else s.maxi), [])
    case Packet(slot, request) =>
      if slot < |s.slots| then Dispatch(s, s.slots[slot], request) else Effect(s, [])
    case Hangup(slot) =>
      if slot < |s.slots| then
        var gone := Disconnect(s, s.slots[slot]);
        Effect(gone.s.(slots := s.slots[slot := -1]), gone.out)
      else Effect(s, [])
    case Restart(listenfd) => Effect(Boot(s.db, listenfd), [])
  }

  /** What the operating system and the poll loop allow: a packet or a close comes from a
      connected slot, accept returns a descriptor that is not open, and a slot is free for it. */
  predicate Enabled(s: State, e: Event) {
    match e
    case Accept(fd) =>
      && (fd == -1 || (fd > 0 && fd !in s.slots))
      && exists i :: 1 <= i < |s.slots| && s.slots[i] < 0
    case Packet(slot, _) => 1 <= slot <= s.maxi && slot < |s.slots| && s.slots[slot] > 0
    case Hangup(slot) => 1 <= slot <= s.maxi && slot < |s.slots| && s.slots[slot] > 0
    case Restart(listenfd) => listenfd >= 0
  }

  ghost function After(s: State, es: seq<Event>): State {
    if es == [] then s
    else Step(After(s, es[..|es| - 1]), es[|es| - 1]).s
  }

  /** Regime A: any packets from any connected clients, with restarts. */
  ghost predicate Legal(s: State, es: seq<Event>) {
    es == [] || (Legal(s, es[..|es| - 1]) && Enabled(After(s, es[..|es| - 1]), es[|es| - 1]))
  }

  /** The descriptor a request or a close comes from. */
  function Origin(s: State, e: Event): int
    requires Enabled(s, e) && (e.Packet? || e.Hangup?)
  {
    s.slots[e.slot]
  }
}
