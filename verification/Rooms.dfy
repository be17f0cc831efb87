/** The value a room holds, and the four operations on it. */
module RoomValues {

  /** A room as its users see it: the descriptors of its members in order of arrival. */
  datatype RoomValue = RoomValue(id: string, capacity: int, members: seq<int>)

  const ALREADY_IN_ROOM := -1
  const ROOM_IS_FULL := -2

  predicate Distinct(xs: seq<int>) {
    forall i, j :: 0 <= i < j < |xs| ==> xs[i] != xs[j]
  }

  predicate WellFormed(r: RoomValue) {
    |r.members| <= r.capacity && Distinct(r.members)
  }

  /** What `add` answers: the new head count, or one of the two refusals. */
  function AddCode(r: RoomValue, f: int): int {
    if |r.members| >= r.capacity then ROOM_IS_FULL
    else if f in r.members then ALREADY_IN_ROOM
    else |r.members| + 1
  }

  function Add(r: RoomValue, f: int): RoomValue {
    if AddCode(r, f) > 0 then r.(members := r.members + [f]) else r
  }

  function Without(xs: seq<int>, f: int): (ys: seq<int>)
    ensures f !in ys && forall x :: x in xs && x != f ==> x in ys
    ensures forall x :: x in ys ==> x in xs
  {
    if xs == [] then []
    else if xs[0] == f then Without(xs[1..], f)
    else [xs[0]] + Without(xs[1..], f)
  }

  /** Stable deletion of the first occurrence, which is all `removeUser` promises of an
      array that might repeat itself. */
  function RemoveFirst(xs: seq<int>, f: int): seq<int> {
    if xs == [] then []
    else if xs[0] == f then xs[1..]
    else [xs[0]] + RemoveFirst(xs[1..], f)
  }

  function Remove(r: RoomValue, f: int): RoomValue {
    r.(members := RemoveFirst(r.members, f))
  }

  function SetCapacity(r: RoomValue, c: int): RoomValue {
    if c < |r.members| then r else r.(capacity := c)
  }

  lemma {:induction false} WithoutAbsent(xs: seq<int>, f: int)
    requires f !in xs
    ensures Without(xs, f) == xs
  {
    if xs != [] { WithoutAbsent(xs[1..], f); }
  }

  /** On a duplicate-free list, deleting the first occurrence deletes the member: everyone
      else stays, in the same order, and the list stays duplicate-free. */
  lemma {:induction false} RemoveFirstIsWithout(xs: seq<int>, f: int)
    requires Distinct(xs)
    ensures RemoveFirst(xs, f) == Without(xs, f) && Distinct(RemoveFirst(xs, f))
  {
    if xs != [] {
      if xs[0] == f {
        assert f !in xs[1..];
        WithoutAbsent(xs[1..], f);
      } else {
        RemoveFirstIsWithout(xs[1..], f);
        assert xs[0] !in xs[1..];
      }
    }
  }

  lemma {:induction false} WithoutConcat(xs: seq<int>, ys: seq<int>, f: int)
    ensures Without(xs + ys, f) == Without(xs, f) + Without(ys, f)
  {
    if xs == [] {
      assert xs + ys == ys;
    } else {
      assert (xs + ys)[1..] == xs[1..] + ys;
      WithoutConcat(xs[1..], ys, f);
    }
  }

  lemma {:induction false} FirstAt(xs: seq<int>, f: int)
    requires f in xs
    ensures exists i :: 0 <= i < |xs| && xs[i] == f && f !in xs[..i]
  {
    if xs[0] == f {
      assert f !in xs[..0];
    } else {
      FirstAt(xs[1..], f);
      var i :| 0 <= i < |xs| - 1 && xs[1..][i] == f && f !in xs[1..][..i];
      assert xs[..i + 1] == [xs[0]] + xs[1..][..i];
      assert xs[i + 1] == f && f !in xs[..i + 1];
    }
  }

  /** RemoveFirst read as array positions: the prefix stays, the suffix moves down by one. */
  lemma {:induction false} RemoveFirstAt(xs: seq<int>, f: int, i: nat)
    requires i < |xs| && xs[i] == f && f !in xs[..i]
    ensures RemoveFirst(xs, f) == xs[..i] + xs[i + 1..]
  {
    if i > 0 {
      assert xs[0] == xs[..i][0];
      assert xs[1..][..i - 1] == xs[..i][1..];
      RemoveFirstAt(xs[1..], f, i - 1);
    }
  }

  lemma {:induction false} RemoveFirstAbsent(xs: seq<int>, f: int)
    requires f !in xs
    ensures RemoveFirst(xs, f) == xs
  {
    if xs != [] { RemoveFirstAbsent(xs[1..], f); }
  }

  /** One list is the other without its first f, if it has one. */
  predicate TakenOut(before: seq<int>, f: int, after: seq<int>) {
    if f in before then
      exists i :: 0 <= i < |before| && before[i] == f && f !in before[..i] && after == before[..i] + before[i + 1..]
    else after == before
  }

  lemma {:induction false} RemoveFirstTakesOut(xs: seq<int>, f: int)
    ensures TakenOut(xs, f, RemoveFirst(xs, f))
  {
    if f in xs {
      var i :| 0 <= i < |xs| && xs[i] == f && f !in xs[..i] by { FirstAt(xs, f); }
      RemoveFirstAt(xs, f, i);
    } else {
      RemoveFirstAbsent(xs, f);
    }
  }

  lemma NothingToRemove(xs: seq<int>, f: int, n: nat)
    requires n == |xs| && f !in xs[..n]
    ensures RemoveFirst(xs, f) == xs
  {
    assert xs[..n] == xs;
    RemoveFirstAbsent(xs, f);
  }

  // Runs of operations on one room.

  datatype RoomOp = AddOp(f: int) | RemoveOp(f: int) | CapacityOp(c: int)

  function Apply(r: RoomValue, op: RoomOp): RoomValue {
    match op
    case AddOp(f) => Add(r, f)
    case RemoveOp(f) => Remove(r, f)
    case CapacityOp(c) => SetCapacity(r, c)
  }

  function ApplyAll(r: RoomValue, ops: seq<RoomOp>): RoomValue {
    if ops == [] then r
    else Apply(ApplyAll(r, ops[..|ops| - 1]), ops[|ops| - 1])
  }

  lemma {:induction false} RemoveFirstLength(xs: seq<int>, f: int)
    ensures |RemoveFirst(xs, f)| == if f in xs then |xs| - 1 else |xs|
  {
    if xs != [] { RemoveFirstLength(xs[1..], f); }
  }

  /** Over any sequence of operations the room stays bounded and duplicate-free. */
  lemma {:induction false} RoomStaysWellFormed(r: RoomValue, ops: seq<RoomOp>)
    requires WellFormed(r)
    ensures WellFormed(ApplyAll(r, ops))
  {
    if ops != [] {
      var before := ApplyAll(r, ops[..|ops| - 1]);
      RoomStaysWellFormed(r, ops[..|ops| - 1]);
      match ops[|ops| - 1]
      case RemoveOp(f) => RemoveFirstLength(before.members, f); RemoveFirstIsWithout(before.members, f);
      case AddOp(_) =>
      case CapacityOp(_) =>
    }
  }

  /** The i-th operation let f in and no later one put it out. */
  predicate JoinedAt(r: RoomValue, ops: seq<RoomOp>, f: int, i: int) {
    && 0 <= i < |ops|
    && ops[i] == AddOp(f)
    && AddCode(ApplyAll(r, ops[..i]), f) > 0
    && RemoveOp(f) !in ops[i + 1..]
  }

  /** Who is in the room after any sequence of operations: exactly those let in and not put
      out since, and those there from the start and never put out. */
  lemma {:induction false} MembershipHistory(r: RoomValue, ops: seq<RoomOp>, f: int)
    requires WellFormed(r)
    ensures f in ApplyAll(r, ops).members
       <==> (f in r.members && RemoveOp(f) !in ops) || exists i :: JoinedAt(r, ops, f, i)
  {
    if ops != [] {
      var n := |ops| - 1;
      var front, last := ops[..n], ops[n];
      var before := ApplyAll(r, front);
      assert ops == front + [last];
      MembershipHistory(r, front, f);
      RoomStaysWellFormed(r, front);
      forall i | 0 <= i < n ensures JoinedAt(r, ops, f, i) <==> JoinedAt(r, front, f, i) && last != RemoveOp(f) {
        assert ops[..i] == front[..i];
        assert ops[i + 1..] == front[i + 1..] + [last];
      }
      assert ops[..n] == front && ops[n + 1..] == [];
      assert JoinedAt(r, ops, f, n) <==> last == AddOp(f) && AddCode(before, f) > 0;
      match last
      case RemoveOp(g) => RemoveFirstIsWithout(before.members, g);
      case AddOp(g) =>
        if g == f && AddCode(before, f) > 0 { assert JoinedAt(r, ops, f, n); }
      case CapacityOp(_) =>
    }
  }
}

/** The class that keeps such a value in a count and an array of its own. */
module Rooms {
  import opened RoomValues

  /** What copying a room copies: its fields, the reference to its buffer among them. */
  datatype Record = Record(roomID: string, capacity: int, availableUsers: int, fdRoomMembers: array?<int>)

  ghost predicate Consistent(r: Record) {
    && 0 <= r.availableUsers <= r.capacity
    && (r.fdRoomMembers == null ==> r.capacity == 0)
    && (r.fdRoomMembers != null ==> r.capacity <= r.fdRoomMembers.Length)
  }

  ghost function ValueOf(r: Record): RoomValue
    requires Consistent(r)
    reads r.fdRoomMembers
  {
    RoomValue(r.roomID, r.capacity, if r.fdRoomMembers == null then [] else r.fdRoomMembers[..r.availableUsers])
  }

  class Room {
    var capacity: int
    var availableUsers: int
    var fdRoomMembers: array?<int>
    var roomID: string

    function Fields(): Record
      reads this
    {
      Record(roomID, capacity, availableUsers, fdRoomMembers)
    }

    ghost predicate Valid()
      reads this
    {
      Consistent(Fields())
    }

    ghost function Value(): RoomValue
      requires Valid()
      reads this, fdRoomMembers
    {
      ValueOf(Fields())
    }

    ghost function Members(): seq<int>
      requires Valid()
      reads this, fdRoomMembers
    {
      Value().members
    }

    /** The default room: no capacity and no buffer. */
    constructor Empty()
      ensures Valid() && fdRoomMembers == null
      ensures Value() == RoomValue("", 0, [])
    {
      capacity, availableUsers, fdRoomMembers, roomID := 0, 0, null, "";
    }

    constructor (id: string, newCapacity: int)
      ensures Valid() && (fdRoomMembers == null || fresh(fdRoomMembers))
      ensures Value() == RoomValue(id, if newCapacity < 0 then 0 else newCapacity, [])
    {
      capacity, availableUsers, fdRoomMembers, roomID := 0, 0, null, id;
      if newCapacity >= 0 {
        capacity := newCapacity;
        fdRoomMembers := new int[newCapacity];
      }
    }

    /** The implicit copy of a room: the new object shares the old one's buffer. */
    constructor Shallow(r: Record)
      ensures Fields() == r
    {
      capacity, availableUsers, fdRoomMembers, roomID := r.capacity, r.availableUsers, r.fdRoomMembers, r.roomID;
    }

    method Add(fdUser: int) returns (code: int)
      requires Valid()
      modifies this, fdRoomMembers
      ensures Valid() && fdRoomMembers == old(fdRoomMembers) && capacity == old(capacity) && roomID == old(roomID)
      ensures var ms := old(Members());
              if |ms| >= capacity then code == -2 && Members() == ms
              else if fdUser in ms then code == -1 && Members() == ms
              else code == |ms| + 1 && Members() == ms + [fdUser]
      ensures code == AddCode(old(Value()), fdUser)
      ensures Value() == RoomValues.Add(old(Value()), fdUser)
    {
      if availableUsers < capacity {
        var i := 0;
        while i < availableUsers
          invariant 0 <= i <= availableUsers
          invariant fdUser !in fdRoomMembers[..i]
        {
          if fdRoomMembers[i] == fdUser {
            assert fdUser == Members()[i];
            return -1;
          }
          i := i + 1;
        }
        fdRoomMembers[availableUsers] := fdUser;
        availableUsers := availableUsers + 1;
        return availableUsers;
      }
      return -2;
    }

    /** The shift loop: everything after position i moves down by one. */
    static method ShiftDown(a: array<int>, i: nat, n: nat)
      requires i < n <= a.Length
      modifies a
      ensures a[..n - 1] == old(a[..i] + a[i + 1..n])
    {
      ghost var was := a[..n];
      var j := i;
      while j < n - 1
        invariant i <= j <= n - 1
        invariant a[..j] == was[..i] + was[i + 1..j + 1]
        invariant a[j..n] == was[j..]
      {
        assert a[j + 1] == a[j..n][1] == was[j + 1];
        a[j] := a[j + 1];
        j := j + 1;
        assert a[j..n] == was[j..];
      }
      assert was[i + 1..n] == was[i + 1..];
    }

    /** Removal at a position already found. */
    method TakeOutAt(i: int, fdUser: int)
      requires Valid() && 0 <= i < availableUsers && fdRoomMembers[i] == fdUser && fdUser !in fdRoomMembers[..i]
      modifies this`availableUsers, fdRoomMembers
      ensures Valid() && fdRoomMembers == old(fdRoomMembers) && roomID == old(roomID)
      ensures Value() == Remove(old(Value()), fdUser)
    {
      ghost var was := Members();
      assert was[..i] == fdRoomMembers[..i];
      RemoveFirstAt(was, fdUser, i);
      ShiftDown(fdRoomMembers, i, availableUsers);
      availableUsers := availableUsers - 1;
    }

    method RemoveUser(fdUser: int)
      requires Valid()
      modifies this`availableUsers, fdRoomMembers
      ensures Valid() && fdRoomMembers == old(fdRoomMembers) && roomID == old(roomID)
      ensures TakenOut(old(Members()), fdUser, Members())
      ensures Value() == Remove(old(Value()), fdUser)
    {
      RemoveFirstTakesOut(Members(), fdUser);
      var i := 0;
      while i < availableUsers && fdRoomMembers[i] != fdUser
        invariant 0 <= i <= availableUsers
        invariant fdRoomMembers != null ==> fdUser !in fdRoomMembers[..i]
      {
        i := i + 1;
      }
      if i < availableUsers {
        TakeOutAt(i, fdUser);
      } else {
        NothingToRemove(Members(), fdUser, i);
      }
    }

    method SetRoomID(id: string)
      requires Valid()
      modifies this`roomID
      ensures Valid() && Value() == old(Value()).(id := id)
    {
      roomID := id;
    }

    /** Moves the members to a buffer of the new size. */
    method SetCapacity(newCapacity: int)
      requires Valid()
      modifies this`capacity, this`fdRoomMembers
      ensures Valid()
      ensures if newCapacity < old(availableUsers) then fdRoomMembers == old(fdRoomMembers)
              else fdRoomMembers != null && fresh(fdRoomMembers)
      ensures Members() == old(Members()) && roomID == old(roomID)
      ensures capacity == if newCapacity < old(availableUsers) then old(capacity) else newCapacity
      ensures Value() == RoomValues.SetCapacity(old(Value()), newCapacity)
    {
      if newCapacity >= availableUsers {
        var temp := new int[newCapacity];
        var i := 0;
        while i < availableUsers
          modifies temp
          invariant 0 <= i <= availableUsers
          invariant Valid() && Members() == old(Members())
          invariant temp[..i] == Members()[..i]
        {
          temp[i] := fdRoomMembers[i];
          i := i + 1;
        }
        assert Members()[..i] == Members();
        fdRoomMembers := temp;
        capacity := newCapacity;
      }
    }

    /** A copy the caller may change without touching the room. */
    method ListClients() returns (list: array<int>)
      requires Valid()
      ensures fresh(list) && list[..] == Members()
    {
      list := new int[availableUsers];
      var i := 0;
      while i < availableUsers
        invariant 0 <= i <= availableUsers == list.Length
        invariant list[..i] == Members()[..i]
      {
        list[i] := fdRoomMembers[i];
        i := i + 1;
      }
    }

    method Find(fdUser: int) returns (found: bool)
      requires Valid()
      ensures found <==> fdUser in Members()
    {
      var i := 0;
      while i < availableUsers
        invariant 0 <= i <= availableUsers
        invariant fdUser !in Members()[..i]
      {
        if fdRoomMembers[i] == fdUser {
          assert fdUser == Members()[i];
          return true;
        }
        i := i + 1;
      }
      assert Members()[..i] == Members();
      return false;
    }
  }
}
