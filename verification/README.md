# The chat server's session state machine

A Dafny model of the multi-user chat server (`server/`) and of the two pieces of its client
(`client/`) that the server relies on or that work on text in place, with proofs about every run.

The server is single-threaded. One turn of its poll loop is one event: a connection is accepted, a
packet is read from a connected slot, or a connection is closed. The same fact lives in several
places and each handler updates them one at a time: "u is in room R" is in the user's state, in the
room's descriptor array and in a database column; "v is online" is in the user map and in the flag
of every client talking to v; a message for v is either on v's socket or in a table. The theorems
say that these views never disagree, over any run.

## Files

| file | content |
|---|---|
| `NameOrder.dfy` | the order in which a `std::map` keyed by names is walked |
| `Rooms.dfy` | a room as a value, its history, and the `Room` class over a real array |
| `Tables.dfy` | the three database tables, the stored procedures, the state column's encoding |
| `Chat.dfy` | the server as a state machine: events, handlers, steps, runs |
| `Server.dfy` | the `Server` object: one method a handler, maps, arrays and tables updated in place, each method proved to do what `Chat` says |
| `Mirror.dfy`, `Safety.dfy`, `Requests.dfy` | regime A: maps and tables agree, administrators, non-interference, foreign keys, answers |
| `Readings.dfy` | regime A: the gate, and what a login, a message, a leave, an accept, a close and a start do, without the handlers' own vocabulary |
| `Sessions.dfy`, `Wire.dfy`, `Delivery.dfy`, `SessionTheorems.dfy` | regime B: rooms, users and connections agree; delivery exactly once |
| `Clients.dfy` | polite clients: their flags, and why their runs are runs of regime B |
| `Examples.dfy` | runs from tables that show what the conditions are for |
| `RoundTrips.dfy` | what one request does, another undoes |
| `Colour.dfy` | the client's colour directives: the in-place shift, the line-by-line meaning |

## The kinds of runs

**Regime A** (`Chat.Legal`): any packet from any connected descriptor, in any order, with restarts at
any point. The only conditions are what the operating system gives: a packet or a close comes from a
connected slot, `accept` returns -1 or a positive descriptor that is not open, and a slot is free for
it. The start is any state in which maps and tables agree (`Mirror.Sound`), which every start from
tables is (`Mirror.BootIsSound`).

**Regime B** (`Sessions.GuardedRun`): in addition three things that the server does not check. A
`loginn` that is accepted comes from a descriptor nobody is bound to, and the room that the user's
state names, if any, is there and has a place; a `withh` or `joinn` that is granted does not come from
inside a room. Restarts are allowed. The start has nobody online and every room empty
(`Sessions.NobodyOnline`), whatever the users' states, as every start from tables has
(`RoundTrips.FreshStart`). This is exactly what keeps rooms and users in agreement
(`SessionTheorems.RoomsMatchUsers`).

**Polite clients** (`Clients.Disciplined`): each packet is one the client program would let its user
send. The client's flags are not assumed: they are computed from what the server wrote to that
descriptor since it was accepted (`Clients.ViewOf`); a client that is not logged in by its own flag
sends `loginn`, one that is in no talk by its own flags sends `withh` or `joinn`. A client is taken to
have read everything written to it before it sends its next packet. While every login finds an idle
user (`Safety.LoginsFindIdle`), these runs are runs of regime B (`Clients.PoliteRunsAreGuarded`).
Polite or not, in regime B the flags are true exactly then (`Clients.FlagsTrueIff`). Without a restart
every login finds an idle user, if everybody was idle at the start (`Safety.OfflineStaysIdle`).

## What was found

- **An empty text in a user's store loses the store.** `handleOfflineMessage` stops writing at the
  first empty text and then deletes everything stored. `Delivery.ExactlyOnce` holds exactly when no
  login meets an empty text; `Examples.EmptyTextExample` is a run that loses a message. A typed line
  that is nothing but a colour directive, such as `?R`, is sent as an empty text
  (`Colours.EmptyTextIff`). The README of the repository (lines 85-86) promises every offline
  message; the model follows the code.
- **After a restart a descriptor can stay in a room that its user left.** A user whose state names
  room R is put back in R by its login, but the reply does not tell a fresh client so; the client joins
  Q, and both arrays hold the descriptor. When it closes, only Q lets go of it, and whoever is given
  that descriptor next hears R without logging in (`Examples.GhostMemberRun`; `GhostMemberExample` is
  the whole story from idle tables). Arrays and users agree after every event of a run if and only if
  no accepted login comes from a descriptor somebody is bound to or finds the user's room missing or
  full, and no granted `withh` or `joinn` comes from inside a room (`SessionTheorems.RoomsMatchUsers`).
- **An accepted login can go unanswered.** A restart empties the rooms and keeps the users' states, so a
  room may have been resized, or filled, by the time its user logs in again. If it is there but full, or
  holds the descriptor, the user is bound to the descriptor in a room it is not in, and nothing at all is
  written: exactly then (`Readings.LoginIs`), and never without a restart from an idle start
  (`SessionTheorems.LoginNeverStuck`). `Examples.SilentLoginRun` and `SilentLoginExample` are such runs.
- **A talk with a user named `ROOM x` comes back from a restart as room `x`** because both are
  written to the state column as the same text (`Mirror.LookalikeComesBackAsRoom`;
  `Examples.LookalikeRun`, `LookalikeExample`). A state survives exactly when `Tables.Faithful` holds
  of it.
- **Nobody is told when the user with the empty name comes online or goes** (`Examples.NamelessRun`,
  `NamelessExample`). No request can create that account; while the tables have none, presence is true
  of every partner (`SessionTheorems.PresenceIsTrue`). Where they have one, the flags are true of every
  partner throughout a run if and only if, besides, it neither logs in nor closes its connection while
  somebody online is talking to it (`Clients.FlagsTrueIff`).
- **A room with an empty id cannot be left by request**, nor a talk with the user with the empty
  name: the handler takes the empty name to mean "connected with no one"
  (`RoundTrips.JoinThenTerminate`, `RoundTrips.WithThenTerminate`). Neither can be created by a
  request.
- `DeleteUser` says that an administrator's account cannot be deleted, but tests the role of a user
  object it has just built, which is 0. The model follows the code: an administrator can delete another
  who is offline (`Examples.AdminDeletedRun`, `AdminDeletedExample`). There is an administrator in every
  reachable state all the same (`Safety.AlwaysAnAdmin`), because the one who acts is online and the
  target is not.
- The README of the repository (lines 37-38) has room messages go to the other users of a room; the
  code also writes them to the sender, and so does the model.

## Model

| member | source | states |
|---|---|---|
| NameOrder.LessIs | server/models/user.h:36-41 | the keys' order is that of dictionaries: two names agree up to a position where the smaller one ends or has the smaller character |
| NameOrder.LessTotal | server/models/user.h:36-41 | names are totally ordered, so a scan of the user map has one order |
| NameOrder.ExtremesUnique | server/service/sock_connect.cpp:934-948 | the user a stopping scan finds, and the one a scan without a break ends on, are determined |
| Rooms.Room.constructor | server/models/Room.cpp:138-163 | an empty room with the given id and capacity, a negative capacity counting as 0, in a buffer of its own |
| Rooms.Room.Add | server/models/Room.cpp:3-22 | appends and answers the new head count, or changes nothing and answers -1 (already in) or -2 (full, which is decided first) |
| Rooms.Room.RemoveUser | server/models/Room.cpp:24-38 | the shift loop is stable deletion of the first occurrence in the same buffer, and nothing at all for an absent descriptor |
| Rooms.Room.ShiftDown | server/models/Room.cpp:30-33 | everything behind the position moves down by one, everything before it stays |
| Rooms.Room.SetCapacity | server/models/Room.cpp:52-76 | below the head count nothing changes and the buffer stays; otherwise the members move in order to a fresh buffer |
| Rooms.Room.ListClients | server/models/Room.cpp:84-94 | a fresh array equal to the members |
| Rooms.Room.Find | server/models/Room.cpp:119-129 | true exactly for members |
| RoomValues.RemoveFirstIsWithout | server/models/Room.cpp:24-38 | in a duplicate-free room, removal takes out exactly the one member, keeps the order of the rest and adds no duplicate |
| RoomValues.RoomStaysWellFormed | server/models/Room.cpp:3-76 | over any sequence of add, removeUser and setCapacity a room stays within its capacity and free of duplicates |
| RoomValues.MembershipHistory | server/models/Room.cpp:3-76 | who is in a room after any such sequence: exactly those let in and not removed since, and those there from the start and never removed |
| Tables.StateRoundTrip | server/responsibility/usersDA.cpp:40-47 | decoding what SetState wrote gives the state back if and only if it is idle without a name, in a room, or with a user whose name is not empty and does not start with "ROOM " |
| Tables.EncodingInjective | init.sql:88-99 | no two such states share a column value |
| Tables.TextRoundTrip | server/responsibility/usersDA.cpp:40-47 | whatever text the column holds, decoding it and writing it back changes nothing |
| Tables.SelectSaved | init.sql:101-121 | a message saved comes last in its receiver's store and changes no other |
| Tables.SelectAfterDelete | init.sql:132-139 | deleting one user's mail empties that user's store and leaves every other user's as it was, in order |
| Mirror.BootIsSound | server/service/databaseAccess.cpp:4-41 | recovery from any tables gives maps that agree with them, with everyone offline and every room empty |
| Mirror.AlwaysSound | server/service/sock_connect.cpp:194-265 | A: after every event of any run, the user map and the users table agree on name, password, role and state, the room map and the rooms table on id and capacity; every room is filed under its own id, bounded and duplicate-free; no descriptor sits in two slots and none above maxi |
| Mirror.RestartRecovers | server/service/databaseAccess.cpp:4-41 | A: a restart gives back every account and room, everyone offline and every room empty, and everybody's state if and only if every state survives the column |
| Mirror.LookalikeComesBackAsRoom | server/responsibility/usersDA.cpp:44-45 | the family of states that does not survive: a talk with a user named "ROOM x" becomes room x |
| Safety.RestartKeepsStates | server/service/databaseAccess.cpp:4-22 | A: while no account is named like that, a restart at any point of any run loses nothing but the connections |
| Safety.AlwaysAnAdmin | server/service/sock_connect.cpp:313-420 | A: if there is an administrator, there is one after every run |
| Safety.RolesStay | server/service/sock_connect.cpp:300-303 | A: if all roles are in {1,2}, they are after every run |
| Safety.OfflineStaysIdle | server/service/sock_connect.cpp:952-976 | A, without a restart: if whoever is offline is idle, it stays so whatever the clients send, and every login finds an idle user |
| Safety.PartnersAreOthers | server/service/sock_connect.cpp:437-447 | A: while logins find idle users nobody online is their own partner, and without an account with the empty name there never is one nor a talk with it |
| Safety.NonInterference | server/service/sock_connect.cpp:194-265 | A: a packet or a close on one descriptor leaves every online user on another one exactly as it was, in the same rooms, and keeps the order of every room's other members |
| Safety.OnlyAdminsEdit | server/service/sock_connect.cpp:720-733 | A: a request from a descriptor none of whose users has role 1, an accept, a close or a restart makes no account appear, disappear or change password or role, and no room appear, disappear or change size |
| Safety.AlwaysForeignKeys | init.sql:54-63 | A: in every reachable state each stored message's sender and receiver have accounts |
| Requests.SchemaAccepts | init.sql:15-63 | A: the statements a request sends are exactly what changes the tables, and each, whether or not it changes anything, leaves the primary keys unique, the roles in the roles table and the messages between accounts |
| Requests.SchemaAcceptsClose | server/service/sock_connect.cpp:967 | and so the one a close sends |
| Requests.AnswersAreHonest | server/service/sock_connect.cpp:267-1200 | A: a request gets exactly one answer, on its own connection. It is granted if and only if the first user bound to the descriptor may have it: accounts and new rooms are for one with a name and role 1, a room is resized or deleted for one with role 1 when it is there and empty, an account is changed or deleted when its user is offline (and, to be deleted, no stored message names it), a join needs a place in a room that does not hold the descriptor, and so on. Then exactly the thing asked for has changed, in the maps and in the tables (a created or changed account opens with exactly its password and has role 1 exactly when asked for, a deleted one opens with none), and the answer tells the truth. Otherwise nothing has changed and the refusal is all that is written |
| Requests.NoAnswerOtherwise | server/service/sock_connect.cpp:1039-1043 | A: chat messages get no answer, nor does an accepted login whose user's room is there but full or holds the descriptor; a request of no known type does nothing at all |
| Readings.GateTurnsAway | server/service/sock_connect.cpp:198-203 | A: a request that is no login, from a descriptor nobody is bound to, changes nothing and is answered by one sendFail |
| Readings.SendFailIff | server/service/sock_connect.cpp:194-203 | A: and sendFail is written to nobody else and on no other occasion |
| Readings.NoticesAre | server/service/sock_connect.cpp:1286-1306 | presence notices go to exactly those online who talk to the user, in ascending order of their names |
| Readings.FlushDelivers | server/service/sock_connect.cpp:1202-1221 | the flush writes the store in order, up to the first empty text |
| Readings.LoginIs | server/service/sock_connect.cpp:999-1072 | A: an accepted login is greeted, with the flush and the notices, if and only if it is not so that its user's room is still there and is full or holds the descriptor; it binds the descriptor either way, and a user whose room is gone is greeted |
| Readings.SendIs | server/service/sock_connect.cpp:523-585 | A: a message is the last bound user's: written to the partner, stored for an offline one, or written to the room's members in their order; without a partner or room that exists nothing happens |
| Readings.TerminateIs | server/service/sock_connect.cpp:591-642 | A: whoever is with somebody is taken out of the room, if it is one, those who stay are told in order, and the confirmation comes last |
| Readings.CloseIs | server/service/sock_connect.cpp:156-177 | A: a close frees the slot and leaves the first bound user offline and idle, in the map and the table; first its watchers are told, then those who stay in its room |
| Readings.CloseUnbound | server/service/sock_connect.cpp:156-177 | A: and on a descriptor nobody is bound to it frees the slot and does nothing else |
| Readings.AcceptIs | server/service/sock_connect.cpp:67-99 | A: a new descriptor takes the first free slot from 1 on |
| Readings.BootIs | server/service/databaseAccess.cpp:4-41 | A: after a start everybody is offline in the state its column tells, every room is empty, and one of 35 slots is taken, the listening socket's |
| Readings.LegalRuns | server/service/sock_connect.cpp:111-190 | A: which event may come next, and that a run goes on one step at a time |
| Sessions.StepKeepsSession | server/service/sock_connect.cpp:194-265 | every guarded step, a restart included, keeps: no shared descriptors, whoever is online and in a room is in its array, whoever is in an array is online and in that room, everyone online is on an open slot |
| Sessions.AlwaysInSession | server/service/sock_connect.cpp:111-190 | B: that invariant in every reachable state |
| Clients.PoliteRunsAreGuarded | client/service/client.cpp:290-336 | polite clients whose logins find idle users: the run is one of regime B, and each connected client's four flags (logged in, with a user, in a room, partner online) are true of the user bound to it |
| Clients.GuardedAgree | client/service/client.cpp:290-336 | B, whose logins find idle users: each connected client's flags are true of the user bound to it, about the user with the empty name as long as it neither comes nor goes while somebody is talking to it |
| Clients.FlagsTrueIff | client/service/client.cpp:233-253 | B or polite clients, with restarts: the flags of all connected clients are true after every event if and only if every login finds its user idle; and with the presence of the user with the empty name among them, if and only if besides that user neither logs in nor closes its connection while somebody else online is talking to it |
| Sessions.StepIff | server/service/sock_connect.cpp:782-835 | from a state in which rooms and users agree, one event keeps the agreement if and only if it is guarded |
| SessionTheorems.RoomsMatchUsers | server/service/sock_connect.cpp:782-897 | A: rooms and users agree after every event of a run if and only if no accepted login comes from a descriptor somebody is bound to or finds the user's room missing or full, and no granted `withh` or `joinn` comes from inside a room; then a descriptor is in a room's array if and only if it is the one of a user in that room, the room an online user is in exists under its own id, no two online users share a descriptor, and without a restart, from an idle start, offline users are idle |
| SessionTheorems.MatchedIs | server/service/sock_connect.cpp:782-897 | rooms and users agree if and only if a descriptor is in a room's array exactly when somebody bound to it is in that room, online users' rooms exist, and no two online users share a descriptor |
| SessionTheorems.GuardedRuns | server/service/sock_connect.cpp:194-265 | B one event at a time: a run goes on within it if and only if an accepted login comes from a descriptor nobody is bound to and finds the user's room, if any, with a place, and a granted `withh` or `joinn` does not come from inside a room |
| SessionTheorems.PoliteRuns | client/service/client.cpp:290-336 | and polite runs: a client logs in only when not logged in, and starts a talk only outside of one, by its own flags |
| SessionTheorems.PresenceIsTrue | server/service/sock_connect.cpp:1286-1306 | B, whose logins find idle users, with restarts: nobody is their own partner, and the presence last told to a user's client is whether the partner is online now, for every partner with a name, and for the one without as long as there is no such account or it neither comes nor goes while somebody is talking to it |
| SessionTheorems.FlagsAreTrue | client/service/client.cpp:233-253 | B, whose logins find idle users: a connected client is logged in by its own flag if and only if somebody is bound to its descriptor, and with a user or in a room exactly as that user's state says |
| SessionTheorems.DescriptorReuse | server/service/sock_connect.cpp:67-99 | B: every descriptor bound to a user or held in a room is open in exactly one slot, so one that accept hands out again is bound to nobody, sits in no room and starts with fresh flags |
| SessionTheorems.JoinAnswer | server/service/sock_connect.cpp:792-834 | B: a join is refused if and only if the room is missing, holds exactly its capacity or is the room the user is in; the duplicate case occurs for no other user, so never for one in no room |
| SessionTheorems.LoginNeverStuck | server/service/sock_connect.cpp:1030-1049 | A, without a restart, from an idle start: the branch for a refused re-add is never taken, whatever the clients send |
| Delivery.FlushedIsLongestPrefix | server/service/sock_connect.cpp:1202-1221 | the flush delivers exactly the longest prefix of the store without an empty text, which is all of it if and only if no text is empty |
| Delivery.StepBalances | server/service/sock_connect.cpp:523-585 | B: for every user and step, what was held and what falls due is what arrives, is dropped by a flush, or is held; nothing is held for a user who is online |
| Delivery.ExactlyOnce | server/service/sock_connect.cpp:523-585 | B: over any run, across restarts, and for every user, messages and notices received followed by those held are those held at the start followed by those due, in order, each once, if and only if no login of that user met an empty text; what is due is said of users and states alone (to the partner, to every online user of the room, the notice of leaving to all who stay and not to the leaver) |
| SessionTheorems.RoomMessageOnce | server/service/sock_connect.cpp:838-858 | B: a room message is written once to each descriptor of a user in the room, the sender's included, and to no other |
| SessionTheorems.LeavingIsAnnouncedOnce | server/service/sock_connect.cpp:860-897 | B: the notice of leaving is written once to each other descriptor of a user in the room, never to the leaver, who gets the confirmation and nothing else |
| SessionTheorems.SwitchOffIsAnnouncedOnce | server/service/sock_connect.cpp:952-976 | B: so it is for a user whose connection closed, who gets nothing |
| SessionTheorems.CloseIsAnnouncedOnce | server/service/sock_connect.cpp:156-177 | B: when a connection closes, each descriptor of a user talking to the one who goes gets one notice that the partner is offline, each other descriptor of a user in the same room one that the user left, and no other gets anything |
| SessionTheorems.ExactlyOnceWithTexts | README:83-86 | B: with no empty text sent or stored, delivery is exactly once, across any offline periods, restarts, deletions and new accounts |
| SessionTheorems.EmptyTextLosesStore | server/service/sock_connect.cpp:1211-1220 | B: a login that finds an empty text at the head of the store delivers nothing and discards everything |
| Examples.EmptyTextExample | server/service/sock_connect.cpp:1211-1220 | a two-event run from tables that loses the message "hi" |
| Examples.GhostMemberRun | server/service/sock_connect.cpp:1029-1049 | polite clients: from every just started server at which a user's state names a room with a place, and another room has a place, a run after which a descriptor bound to nobody is in the first room, having been in both at once |
| Examples.GhostMemberExample | server/service/sock_connect.cpp:1029-1049 | such a run from idle tables: join R, restart, login, join Q, close, and the descriptor handed out again is in R |
| Examples.SilentLoginRun | server/service/sock_connect.cpp:1030-1049 | polite clients: from every just started server at which two users' states name the same room of one place, a run whose last login, with the right password, gets no answer and leaves its user bound to a descriptor that is not in the room |
| Examples.SilentLoginExample | server/service/sock_connect.cpp:1030-1049 | such a run from tables |
| Examples.LookalikeRun | server/responsibility/usersDA.cpp:44-45 | polite clients: from every just started server with an idle administrator with a name and no account "ROOM x" yet, a run after which that administrator is in room x for having talked to "ROOM x" |
| Examples.LookalikeExample | server/responsibility/usersDA.cpp:44-45 | such a run from tables |
| Examples.NamelessRun | server/service/sock_connect.cpp:1294 | polite clients: from every just started server with an idle nameless account and another idle account, a run after which the client of the one shows the other offline while it is online |
| Examples.AdminDeletedRun | server/service/sock_connect.cpp:316-354 | from every just started server with two administrators, one of them idle and named, and no stored messages, a run in which that one deletes the other |
| Examples.AdminDeletedExample | server/service/sock_connect.cpp:316-354 | such a run from tables |
| Examples.NamelessExample | server/service/sock_connect.cpp:1294 | such a run from tables |
| SessionTheorems.NoStrayPosts | server/service/sock_connect.cpp:838-897 | B: no message and no room notice is written to a descriptor nobody is bound to |
| RoundTrips.CreateUserThenDelete | server/service/sock_connect.cpp:267-357 | deleting the account just created restores the server and its tables exactly |
| RoundTrips.CreateRoomThenDelete | server/service/sock_connect.cpp:1145-1200 | and so for a room |
| RoundTrips.JoinThenTerminate | server/service/sock_connect.cpp:591-642 | leaving the room just joined restores everything, the other members' order included, if and only if the room's id is not empty |
| RoundTrips.WithThenTerminate | server/service/sock_connect.cpp:591-642 | ending the talk just started restores everything if and only if the partner's name is not empty |
| RoundTrips.LoginThenClose | server/service/sock_connect.cpp:952-976 | B: closing the connection right after a login restores everything but the mail, the members of the room it went back to included, and leaves the user idle |
| RoundTrips.PasswordsSurviveRestart | server/service/databaseAccess.cpp:4-22 | A: after a restart an account opens with the password it had, and no other |
| RoundTrips.FreshStart | server/service/databaseAccess.cpp:4-41 | every start from tables has maps and tables in agreement, nobody online and every room empty; everybody is idle if and only if the state column reads empty for everyone |
| Servers.Server.Init | server/service/sock_connect.cpp:47-59 | the object starts in the state recovered from the tables, only the listening socket in the slot table |
| Servers.Server.InMemory | server/service/sock_connect.h:38-43 | what the object holds when it is in a state: the maps, the slot table, and each room's members at the front of a buffer that is no other room's |
| Servers.Server.MapUser | server/service/databaseAccess.cpp:4-22 | the loop fills the map with every row decoded and offline |
| Servers.Server.MapRoom | server/service/databaseAccess.cpp:24-41 | the loop files every row as an empty room with a buffer of its own |
| Servers.Server.RecoverRoom | server/responsibility/roomsDA.cpp:34-41 | a row of the rooms table becomes an empty room; a negative capacity becomes 0 |
| Servers.Server.FindUserByFd | server/service/sock_connect.cpp:934-948 | finds somebody exactly when somebody is bound to the descriptor, and then the one whose name comes before every other's on it |
| Servers.Server.LastUserByFd | server/service/sock_connect.cpp:529-541 | the scan without a break ends on the one whose name comes after every other's |
| Servers.Server.CheckAdmin | server/service/sock_connect.cpp:720-733 | true exactly when the first user bound to the descriptor has a name and role 1 |
| Servers.Server.NotificationOffline | server/service/sock_connect.cpp:1286-1306 | writes the notices the state machine says, in map order (`Readings.NoticesAre`) |
| Servers.Server.PutBack | server/service/sock_connect.cpp:794-804 | writing back a changed shallow copy changes that room's value and no other's, and no two rooms come to share a buffer |
| Servers.Server.EraseAndPutBack | server/service/sock_connect.cpp:893-894 | and so does erasing the entry and inserting the copy |
| Servers.Server.JoinRoom | server/service/sock_connect.cpp:782-835 | copy, add, write-back, state and column do what the state machine says |
| Servers.Server.TakeOut | server/service/sock_connect.cpp:868-894 | shifting the shared buffer, then erasing and inserting the copy, is removal from that one room |
| Servers.Server.LeaveRoom | server/service/sock_connect.cpp:860-897 | and the notice goes to those left in it |
| Servers.Server.Tell | server/service/sock_connect.cpp:851-856 | one write to each member, in order |
| Servers.Server.RoomChat | server/service/sock_connect.cpp:838-858 | a message to the room the sender is in, to nobody if it is gone |
| Servers.Server.AddRoom | server/service/sock_connect.cpp:735-779 | does what the state machine says, with a fresh buffer |
| Servers.Server.ModifyRoom | server/service/sock_connect.cpp:1074-1143 | does what the state machine says (`Requests.AnswersAreHonest`), the copy moved to a fresh buffer before it replaces the original |
| Servers.Server.DeleteRoom | server/service/sock_connect.cpp:1145-1200 | does what the state machine says (`Requests.AnswersAreHonest`) |
| Servers.Server.AddUser | server/service/sock_connect.cpp:267-310 | does what the state machine says |
| Servers.Server.DeleteUser | server/service/sock_connect.cpp:313-357 | does what the state machine says |
| Servers.Server.HandleModifyUser | server/service/sock_connect.cpp:359-420 | erase and insert under the same key is an update of password and role |
| Servers.Server.WithFunction | server/service/sock_connect.cpp:423-520 | does what the state machine says |
| Servers.Server.OneToOneChat | server/service/sock_connect.cpp:523-585 | writes to the partner, stores for an offline one, or broadcasts to the room |
| Servers.Server.LeaveChatUser | server/service/sock_connect.cpp:591-642 | does what the state machine says |
| Servers.Server.ChangeStateUserOff | server/service/sock_connect.cpp:952-976 | does what the state machine says |
| Servers.Server.GetMessageOfUser | server/responsibility/messagesDA.cpp:33-80 | null for an empty store, otherwise a fresh array of the rows in order and one zeroed element |
| Servers.Server.WriteUntilEmpty | server/service/sock_connect.cpp:1211-1218 | terminates inside the array and writes the longest prefix without an empty text |
| Servers.Server.HandleOfflineMessage | server/service/sock_connect.cpp:1202-1221 | writes that prefix of the store and empties the store |
| Servers.Server.Rejoin | server/service/sock_connect.cpp:1026-1049 | binds the descriptor and puts the user back in its room if that is still there and has a place; tells whether the room refused (`Readings.LoginIs`) |
| Servers.Server.Login | server/service/sock_connect.cpp:999-1072 | does what the state machine says, the silent return after a refused re-add included (`Readings.LoginIs`) |
| Servers.Server.AnalyzePackage | server/service/sock_connect.cpp:194-203 | the gate, with the switch behind it, does what the state machine says (`Readings.GateTurnsAway`, `Readings.SendFailIff`) |
| Servers.Server.HandleRequest | server/service/sock_connect.cpp:205-265 | the switch does what the state machine says |
| Servers.Server.EventServer | server/service/sock_connect.cpp:67-99 | a new descriptor goes into the first free slot and maxi follows |
| Servers.Server.ConnectionClosed | server/service/sock_connect.cpp:156-177 | notices, switching off and freeing the slot, in that order |
| Servers.Server.Execute | server/service/sock_connect.cpp:111-190 | over any legal sequence of events without a restart, which makes a new object, the object ends in the state the run leads to and writes, event by event, what the steps write |
| Colours.WrapRoundTrip | client/service/client.cpp:598-632 | colour and text can be read back from a coloured text, except a default-coloured one that looks coloured already |
| Colours.WrapInjective | client/service/client.cpp:598-632 | no two pairs of colour and text are sent alike, when those left in the default colour have no escape character |
| Colours.StrLen | client/service/client.cpp:646-652 | the distance to the first terminator |
| Colours.ClearOpt | client/service/client.cpp:633-658 | leaves "" of a text of length 2, the third character of one of length 3, everything from the fourth on of a longer one whose third is a space, and anything else as it was; nothing behind the terminator is read or changed |
| Colours.ShiftByThree | client/service/client.cpp:646-653 | the loop whose bound is measured again on every turn terminates with the text from the fourth character on |
| Colours.DetectMess | client/service/client.cpp:659-689 | exactly "?" and one of the ten letters, followed by a space, a newline or the end, choose a colour, each letter its own, and are cut out (a newline stays, with the directive, in a longer line); any other line keeps the colour and its text; a text left empty is not coloured |
| Colours.LatestIsLast | client/service/client.cpp:394 | the colour in force is that of the last message line with a directive, the default if there was none |
| Colours.SendLines | client/service/client.cpp:558-597 | over any lines typed, each is sent without its directive and in the colour of the latest directive so far; an empty line is not sent and "?back" ends the talk |
| Colours.WrapIs | client/service/client.cpp:598-632 | the escape sequences: 31 for red, 32 green, 33 yellow, 34 blue, and none for the default |
| Colours.DirectiveIsCut | client/service/client.cpp:633-689 | the line "?", a letter, a space and a text is sent as exactly that text in the letter's colour, and both can be read back |
| Colours.OtherLinesAreWhole | client/service/client.cpp:659-689 | a line that starts with no directive is sent whole, in the colour in force |
| Colours.LeaveIff | client/service/client.cpp:567-585 | a line ends the talk if and only if it has "?back" somewhere, and then chooses no colour; only an empty line is not sent |
| Colours.SentCanBeRead | client/service/client.cpp:598-632 | from a line typed without escape characters that is more than a directive, the receiver can read back both the colour and the text |
| Colours.EmptyTextIff | client/service/client.cpp:635-639 | an empty text is sent if and only if the line is nothing but a directive |

## Left out

- Servers.Server.Execute: requires a free slot for each accept, and takes the events of a run as given; `poll`, `revents`, `nready` and the while-true loop around them are I/O. A read error other than a reset does nothing in the code and is no event here.
- Servers.Server.EventServer: requires a free slot; with the table full the code indexes past it.
- Rooms.Room.RemoveUser: the shift stops at the last member; the code copies one slot more, which nobody reads.
- Rooms.Room.constructor: takes the id as a string; the code copies it without a terminator.
- Servers.Server.GetMessageOfUser: takes the array's extra element to be zeroed; the code leaves it uninitialised.
- SessionTheorems.PresenceIsTrue: the presence of a user with the empty name, where the tables have one, is promised only while it neither comes nor goes under a talk; `notificationOffline` never announces it (`Examples.NamelessRun`).
- Colours.SentCanBeRead: a line that is nothing but a directive is sent as an empty text without its colour.
- Clients.ViewOf: a connection accepted after a restart starts with fresh flags; the client's reconnect loop, which keeps its flags and logs in again by itself, is not modelled.
- Colours.DetectMess: texts are of any length; the fixed buffers of 4096 and 1024 characters are not modelled.
- Writes are returned as a sequence, in order; a failed or partial write, the byte layout and union overlap of `package`, message wordings and console output are not modelled. What `sendFail` writes is one reply.
- The answers of `?listroom`, `?listuser`, `?finduser` and the roles listing are one reply without content: they change nothing.
- MySQL itself: each stored procedure is an update of a map or a sequence with exact string comparison. Column widths, CHAR padding, collation, LIKE, time zones and row order other than insertion order are not modelled; a NULL column reads as the empty string.
- C++ memory: leaks, `strToChar` buffers and the copies `erase(it->first)` makes; the shared member buffers of copied rooms are modelled, `delete` in `setCapacity` is not.
- The client's threads, condition variables, prompts, menus and reconnect loop; only its flags and its text code are modelled.
- The offline timer, the remote shell and `?enter`/`?leave` of the README of the repository have no code.
