/** The MySQL database behind the server: three tables and the stored procedures on them. */
module Tables {

  datatype Option<T> = None | Some(value: T)

  /** Who a user is talking to: nobody (0), the user `name` (1) or the room `name` (2). */
  datatype Status = Status(kind: int, name: string)

  const IDLE := 0
  const WITH_USER := 1
  const IN_ROOM := 2
  const IDLE_STATE := Status(IDLE, "")

  datatype Mail = Mail(sender: string, text: string, time: int)
  datatype Row = Row(password: string, column: Option<string>, role: int)
  datatype StoredMail = StoredMail(receiver: string, mail: Mail)

  datatype Database = Database(users: map<string, Row>, rooms: map<string, int>, messages: seq<StoredMail>)

  // The state column.

  const ROOM_PREFIX := "ROOM "

  /** SetState's nested IF. */
  function Encode(st: Status): Option<string> {
    if st.kind == WITH_USER then Some(st.name)
    else if st.kind == IN_ROOM then Some(ROOM_PREFIX + st.name)
    else None
  }

  /** What the connector's getString gives for a column: NULL reads as the empty string. */
  function ReadColumn(column: Option<string>): string {
    if column.Some? then column.value else ""
  }

  /** The decoding in `selectAllUsers`. */
  function Decode(text: string): Status {
    if text == "" then Status(IDLE, text)
    else if ROOM_PREFIX <= text then Status(IN_ROOM, text[5..])
    else Status(WITH_USER, text)
  }

  function TextOf(st: Status): string {
    ReadColumn(Encode(st))
  }

  /** The names that survive as a chat partner's name in the state column. */
  predicate PlainName(name: string) {
    name != "" && !(ROOM_PREFIX <= name)
  }

  predicate Faithful(st: Status) {
    || st == IDLE_STATE
    || (st.kind == WITH_USER && PlainName(st.name))
    || st.kind == IN_ROOM
  }

  /** A status survives the state column exactly when it is idle with no name, in a room, or
      with a user whose name is not empty and does not look like a room's. */
  lemma StateRoundTrip(st: Status)
    ensures Decode(TextOf(st)) == st <==>
              st == Status(0, "") || (st.kind == 1 && st.name != "" && !("ROOM " <= st.name)) || st.kind == 2
    ensures Decode(TextOf(st)) == st <==> Faithful(st)
  {
    if st.kind == IN_ROOM {
      assert ROOM_PREFIX <= ROOM_PREFIX + st.name;
      assert (ROOM_PREFIX + st.name)[5..] == st.name;
    }
  }

  /** So no two statuses that survive share a column value. */
  lemma EncodingInjective(a: Status, b: Status)
    requires Faithful(a) && Faithful(b) && TextOf(a) == TextOf(b)
    ensures a == b
  {
    StateRoundTrip(a);
    StateRoundTrip(b);
  }

  /** Whatever text the column holds, decoding it and writing the result back changes nothing. */
  lemma TextRoundTrip(text: string)
    ensures TextOf(Decode(text)) == text
    ensures Decode(text).kind in {IDLE, WITH_USER, IN_ROOM}
  {
    if ROOM_PREFIX <= text { assert ROOM_PREFIX + text[5..] == text; }
  }

  // The procedures. An UPDATE of an absent row changes nothing.

  function SetColumn(db: Database, name: string, column: Option<string>): Database {
    if name in db.users then db.(users := db.users[name := db.users[name].(column := column)]) else db
  }

  function ClearState(db: Database, name: string): Database {
    SetColumn(db, name, None)
  }

  function SetState(db: Database, name: string, st: Status): Database {
    SetColumn(db, name, Encode(st))
  }

  function InsertUser(db: Database, name: string, password: string, role: int): Database {
    db.(users := db.users[name := Row(password, None, role)])
  }

  function ModifyUser(db: Database, name: string, password: string, role: int): Database {
    if name in db.users
    then db.(users := db.users[name := db.users[name].(password := password, role := role)])
    else db
  }

  function DeleteUser(db: Database, name: string): Database {
    db.(users := db.users - {name})
  }

  function InsertRoom(db: Database, id: string, capacity: int): Database {
    db.(rooms := db.rooms[id := capacity])
  }

  function ModifyRoom(db: Database, id: string, capacity: int): Database {
    if id in db.rooms then db.(rooms := db.rooms[id := capacity]) else db
  }

  function DeleteRoom(db: Database, id: string): Database {
    db.(rooms := db.rooms - {id})
  }

  function SaveMessage(db: Database, receiver: string, mail: Mail): Database {
    db.(messages := db.messages + [StoredMail(receiver, mail)])
  }

  predicate HaveOfflineMessage(db: Database, name: string) {
    exists i :: 0 <= i < |db.messages| && (db.messages[i].mail.sender == name || db.messages[i].receiver == name)
  }

  /** getMessageOfUser's SELECT, in order of insertion. */
  function Select(messages: seq<StoredMail>, receiver: string): seq<Mail> {
    if messages == [] then []
    else
      var front, last := Select(messages[..|messages| - 1], receiver), messages[|messages| - 1];
      if last.receiver == receiver then front + [last.mail] else front
  }

  function Others(messages: seq<StoredMail>, receiver: string): seq<StoredMail> {
    if messages == [] then []
    else
      var front, last := Others(messages[..|messages| - 1], receiver), messages[|messages| - 1];
      if last.receiver == receiver then front else front + [last]
  }

  function DeleteMessages(db: Database, receiver: string): Database {
    db.(messages := Others(db.messages, receiver))
  }

  function StoredFor(db: Database, receiver: string): seq<Mail> {
    Select(db.messages, receiver)
  }

  /** A message saved comes last in its receiver's store and in no other. */
  lemma SelectSaved(messages: seq<StoredMail>, m: StoredMail, receiver: string)
    ensures Select([], receiver) == []
    ensures Select(messages + [m], receiver)
         == if m.receiver == receiver then Select(messages, receiver) + [m.mail] else Select(messages, receiver)
  {
    assert (messages + [m])[..|messages|] == messages;
  }

  /** Deleting one user's mail empties that user's store and touches nobody else's. */
  lemma {:induction false} SelectAfterDelete(messages: seq<StoredMail>, deleted: string, receiver: string)
    ensures Select(Others(messages, deleted), receiver)
         == if receiver == deleted then [] else Select(messages, receiver)
  {
    if messages != [] {
      var front, m := messages[..|messages| - 1], messages[|messages| - 1];
      SelectAfterDelete(front, deleted, receiver);
      if m.receiver != deleted {
        SelectSaved(Others(front, deleted), m, receiver);
      }
    }
  }

  lemma {:induction false} OthersAreKept(messages: seq<StoredMail>, deleted: string)
    ensures forall m :: m in Others(messages, deleted) <==> m in messages && m.receiver != deleted
  {
    if messages != [] {
      var front, last := messages[..|messages| - 1], messages[|messages| - 1];
      OthersAreKept(front, deleted);
      assert messages == front + [last];
    }
  }

  lemma {:induction false} SelectEmptyIff(messages: seq<StoredMail>, receiver: string)
    ensures Select(messages, receiver) == [] <==> forall i :: 0 <= i < |messages| ==> messages[i].receiver != receiver
  {
    if messages != [] {
      var front := messages[..|messages| - 1];
      SelectEmptyIff(front, receiver);
      assert messages[|messages| - 1].receiver == receiver ==> Select(messages, receiver) != [];
      assert forall i :: 0 <= i < |front| ==> front[i] == messages[i];
    }
  }

  /** Every message's sender and receiver are among the names. */
  predicate NamesKept(messages: seq<StoredMail>, names: set<string>) {
    forall i :: 0 <= i < |messages| ==> messages[i].mail.sender in names && messages[i].receiver in names
  }

  /** The two foreign keys of the message table. */
  predicate ForeignKeys(db: Database) {
    NamesKept(db.messages, db.users.Keys)
  }
}
