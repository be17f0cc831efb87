/** What a step's writes look like from one descriptor. */
module Wire {
  import opened NameOrder
  import opened RoomValues
  import opened Chat

  function To(out: seq<Write>, f: int): seq<Reply> {
    if out == [] then []
    else if out[0].fd == f then [out[0].reply] + To(out[1..], f)
    else To(out[1..], f)
  }

  lemma {:induction false} ToConcat(a: seq<Write>, b: seq<Write>, f: int)
    ensures To(a + b, f) == To(a, f) + To(b, f)
  {
    if a == [] {
      assert a + b == b;
    } else {
      assert (a + b)[1..] == a[1..] + b;
      ToConcat(a[1..], b, f);
    }
  }

  lemma {:induction false} ToWriteAll(g: int, rs: seq<Reply>, f: int)
    ensures To(WriteAll(g, rs), f) == if f == g then rs else []
  {
    if rs != [] { ToWriteAll(g, rs[1..], f); }
  }

  /** A broadcast reaches each member of a duplicate-free list once and nobody else. */
  lemma {:induction false} ToBroadcast(ms: seq<int>, r: Reply, f: int)
    requires Distinct(ms)
    ensures To(Broadcast(ms, r), f) == if f in ms then [r] else []
  {
    if ms != [] {
      ToBroadcast(ms[1..], r, f);
      assert ms[0] !in ms[1..];
    }
  }

  /** A presence notice reaches a descriptor once if its one user watches, and not otherwise. */
  lemma {:induction false} ToNotices(users: map<string, User>, rest: set<string>, about: string, online: bool, f: int)
    requires rest <= users.Keys
    requires forall u, v :: u in rest && v in rest && users[u].fd == users[v].fd == f ==> u == v
    ensures (exists u :: u in rest && users[u].fd == f && Watches(users[u], about))
        ==> To(Notices(users, rest, about, online), f) == [Party(online)]
    ensures (forall u :: u in rest && users[u].fd == f ==> !Watches(users[u], about))
        ==> To(Notices(users, rest, about, online), f) == []
    decreases |rest|
  {
    if rest != {} {
      var u := Least(rest);
      ToNotices(users, rest - {u}, about, online, f);
    }
  }
}

