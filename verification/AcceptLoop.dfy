// The accept thread: everything a new connection needs is acquired step by
// step, and all but the packet of its notice is given back when a step fails
// (NetWork/LAcceptThread.cpp).
module AcceptLoop {
  import opened Tallies
  import opened ThreadPools

  // The threads a session notes (-1 for none), whether its socket is registered
  // for reading, and whether it is flagged as handed to the close thread, which
  // keeps every other thread from handing it over.
  datatype Session = Session(recv: int, send: int, epoll: int, registered: bool, closing: bool)

  datatype Notice = Connect(id: nat) | Disconnect(id: nat)

  // The ring of notices holds one less than its size (NetWork/LAcceptThread.cpp:92).
  const RING: nat := 10

  // The free places of the main queue when a commit starts, and those that come
  // free before it copies the second part.
  datatype Space = Space(room: nat, freed: nat)

  // How one turn of the loop goes. `space` is what the commit of the notice
  // meets, `againSpace` the commit of the notice of a disconnect. `room` says
  // whether the ring of the close thread takes the session.
  datatype Outcome =
    | Stop
    | NotReady
    | Broken
    | Client(nonblocking: bool, space: Space, againSpace: Space, registered: bool, room: bool)

  // `free` counts the sessions left in the pool and `held` are those taken;
  // `idle` counts the packets in the pool for notices and `closing` is the ring
  // of the close thread. `made` and `orphans` are history: packets allocated
  // because the pool was empty, and sessions given back after their notice was
  // queued. The notices not yet moved on start at index `at` of their ring.
  datatype State = State(
    free: nat,
    next: nat,
    held: map<nat, Session>,
    recv: seq<int>,
    send: seq<int>,
    epoll: seq<int>,
    idle: nat,
    made: nat,
    at: nat,
    local: seq<Notice>,
    queue: seq<Notice>,
    closing: seq<nat>,
    orphans: set<nat>)

  // ---- One turn ---------------------------------------------------------------------

  function Up(counts: seq<int>, t: int): (r: seq<int>)
    requires 0 <= t < |counts|
    ensures |r| == |counts|
  {
    counts[t := counts[t] + 1]
  }

  // AddItems of one notice.
  predicate Fits(s: State) {
    |s.local| + 1 < RING
  }

  // How many of n items that start at index `at` lie before the end of the ring.
  function FirstPart(at: nat, n: nat): (k: nat)
    ensures k <= n
  {
    if at < RING <= at + n then RING - at else n
  }

  lemma {:induction false} WholePart(at: nat, n: nat)
    ensures at + n < RING ==> FirstPart(at, n) == n
  {
  }

  // CopyAllItemsToOtherFixLenCircleBuf: how many items move on, and whether it
  // reports success. Items that reach the end of the ring are copied in two
  // parts, the second of which may be empty; a full queue refuses even that.
  function Copy(at: nat, n: nat, space: Space): (r: (nat, bool))
    ensures r.0 <= n && (r.1 ==> r.0 == n)
  {
    var first := FirstPart(at, n);
    if n == 0 then (0, true)
    else if at + n < RING then if n <= space.room then (n, true) else (0, false)
    else if first > space.room then (0, false)
    else
      var room := space.room - first + space.freed;
      if room == 0 || n - first > room then (first, false) else (n, true)
  }

  // The first k notices are in the main queue.
  function Moved(s: State, k: nat): State
    requires k <= |s.local|
  {
    s.(at := (s.at + k) % RING, local := s.local[k..], queue := s.queue + s.local[..k])
  }

  lemma {:induction false} MovedNothing(s: State)
    requires InRing(s)
    ensures Moved(s, 0) == s
  {
  }

  lemma {:induction false} AtTwice(at: nat, a: nat, b: nat)
    ensures ((at + a) % RING + b) % RING == (at + a + b) % RING
  {
  }

  lemma {:induction false} PartsTwice(xs: seq<Notice>, to: seq<Notice>, a: nat, b: nat)
    requires a + b <= |xs|
    ensures xs[a..][b..] == xs[a + b..]
    ensures (to + xs[..a]) + xs[a..][..b] == to + xs[..a + b]
  {
    assert xs[..a] + xs[a..][..b] == xs[..a + b];
  }

  lemma {:induction false} MovedTwice(s: State, a: nat, b: nat)
    requires a + b <= |s.local|
    ensures |Moved(s, a).local| == |s.local| - a
    ensures Moved(Moved(s, a), b) == Moved(s, a + b)
  {
    AtTwice(s.at, a, b);
    PartsTwice(s.local, s.queue, a, b);
    var s1, s2 := Moved(s, a), Moved(Moved(s, a), b);
    assert s2.at == (s1.at + b) % RING;
  }

  predicate InRing(s: State) {
    s.at < RING && |s.local| < RING
  }

  function Commit(s: State, space: Space): State {
    Moved(s, Copy(s.at, |s.local|, space).0)
  }

  predicate Committed(s: State, space: Space) {
    Copy(s.at, |s.local|, space).1
  }

  // GetOneAcceptedPacket: from the pool, or a new one.
  function Fetch(s: State): State {
    if s.idle > 0 then s.(idle := s.idle - 1) else s.(made := s.made + 1)
  }

  // The session stays taken and is flagged, whether or not the close thread's
  // ring took it.
  function HandOver(s: State, id: nat, session: Session, o: Outcome): State
    requires o.Client?
  {
    var t := Commit(s.(local := s.local + if Fits(s) then [Disconnect(id)] else []), o.againSpace);
    t.(held := t.held[id := session.(closing := true)], closing := if o.room then t.closing + [id] else t.closing)
  }

  function Down(counts: seq<int>, t: int): seq<int>
    requires 0 <= t < |counts|
  {
    counts[t := counts[t] - 1]
  }

  // FreeSession and FreeSessionToPool.
  function GivenBack(s: State, id: nat): State {
    s.(free := s.free + 1, held := s.held - {id})
  }

  predicate HasThreads(s: State, id: nat) {
    id in s.held && 0 <= s.held[id].recv < |s.recv| && 0 <= s.held[id].send < |s.send|
  }

  function Undone(s: State, id: nat): State
    requires HasThreads(s, id)
  {
    GivenBack(s.(send := Down(s.send, s.held[id].send), recv := Down(s.recv, s.held[id].recv)), id)
  }

  function EpollNext(s: State, id: nat, o: Outcome): State
    requires o.Client? && HasThreads(s, id)
  {
    var e := Selected(s.epoll);
    if e == -1 then HandOver(s, id, s.held[id], o)
    else
      var bound := s.(epoll := Up(s.epoll, e), held := s.held[id := s.held[id].(epoll := e)]);
      if !o.registered then HandOver(bound, id, bound.held[id], o)
      else bound.(held := bound.held[id := bound.held[id].(registered := true)])
  }

  function AnnounceNext(s: State, id: nat, o: Outcome): State
    requires o.Client? && HasThreads(s, id)
  {
    if !Fits(s) then Undone(s, id)
    else
      var full := s.(local := s.local + [Connect(id)]);
      var sent := Commit(full, o.space);
      if !Committed(full, o.space) then Undone(sent, id).(orphans := s.orphans + {id})
      else EpollNext(sent, id, o)
  }

  const FRESH: Session := Session(-1, -1, -1, false, false)

  // The two threads, then the notice.
  function AcquireNext(s: State, id: nat, o: Outcome): State
    requires o.Client? && id in s.held
  {
    var r := Selected(s.recv);
    if r == -1 then GivenBack(s, id)
    else
      var s2 := s.(recv := Up(s.recv, r), held := s.held[id := s.held[id].(recv := r)]);
      var d := Selected(s2.send);
      if d == -1 then GivenBack(s2.(recv := Down(s2.recv, r)), id)
      else
        var s3 := s2.(send := Up(s2.send, d), held := s2.held[id := s2.held[id].(send := d)]);
        AnnounceNext(Fetch(s3), id, o)
  }

  // One turn, acquisition by acquisition.
  function AcceptNext(s: State, o: Outcome): State {
    if !o.Client? || !o.nonblocking || s.free == 0 then s
    else AcquireNext(s.(free := s.free - 1, next := s.next + 1, held := s.held[s.next := FRESH]), s.next, o)
  }

  // What is left of the session once it is announced and keeps its threads.
  function KeptResult(s: State, id: nat, r: int, d: int, o: Outcome): State
    requires o.Client?
  {
    var e := Selected(s.epoll);
    if e == -1 then HandOver(s, id, Session(r, d, -1, false, false), o)
    else
      var bound := s.(epoll := Up(s.epoll, e));
      if !o.registered then HandOver(bound, id, Session(r, d, e, false, false), o)
      else bound.(held := bound.held[id := Session(r, d, e, true, false)])
  }

  // The same turn, by what it leaves behind. A failure before the notice is out
  // leaves everything as it was, except that the session number is used up, that
  // the notice may stay queued, and that its packet never returns to the pool.
  function TurnResult(s: State, o: Outcome): State {
    if !o.Client? || !o.nonblocking || s.free == 0 then s
    else
      var id := s.next;
      var r, d := Selected(s.recv), Selected(s.send);
      var back := s.(next := id + 1);
      if r == -1 || d == -1 then back
      else if !Fits(s) then Fetch(back)
      else
        var full := Fetch(back).(local := s.local + [Connect(id)]);
        var sent := Commit(full, o.space);
        if !Committed(full, o.space) then sent.(orphans := s.orphans + {id})
        else KeptResult(sent.(free := s.free - 1, recv := Up(s.recv, r), send := Up(s.send, d)), id, r, d, o)
  }

  // The loop ends when it is told to stop or `accept` fails for good.
  function ThreadRun(s: State, script: seq<Outcome>): State
    decreases |script|
  {
    if script == [] || script[0].Stop? || script[0].Broken? then s
    else ThreadRun(AcceptNext(s, script[0]), script[1..])
  }

  // ---- The thread --------------------------------------------------------------------

  class LAcceptThread {
    var free: nat
    var next: nat
    var held: map<nat, Session>
    const recvThreads: LThreadManager
    const sendThreads: LThreadManager
    const epollThreads: LThreadManager
    var idle: nat
    ghost var made: nat
    var at: nat
    var local: seq<Notice>
    var queue: seq<Notice>
    var closing: seq<nat>
    ghost var orphans: set<nat>

    ghost predicate Valid()
      reads this
    {
      && recvThreads.counts != sendThreads.counts
      && recvThreads.counts != epollThreads.counts
      && sendThreads.counts != epollThreads.counts
      && (forall id <- held :: id < next)
      && at < RING && |local| < RING
    }

    ghost function View(): State
      reads this, recvThreads.counts, sendThreads.counts, epollThreads.counts
    {
      State(free, next, held, recvThreads.counts[..], sendThreads.counts[..], epollThreads.counts[..],
            idle, made, at, local, queue, closing, orphans)
    }

    constructor (sessions: nat, packets: nat, recvCount: nat, sendCount: nat, epollCount: nat)
      ensures Valid() && View() == Started(sessions, packets, recvThreads.counts.Length, sendThreads.counts.Length, epollThreads.counts.Length)
    {
      free, next, held, local, queue, closing, orphans := sessions, 1, map[], [], [], [], {};
      idle, made, at := packets, 0, 0;
      recvThreads := new LThreadManager(recvCount);
      sendThreads := new LThreadManager(sendCount);
      epollThreads := new LThreadManager(epollCount);
    }

    // AddItems on the ring of notices.
    method AddNotice(m: Notice) returns (ok: bool)
      requires Valid()
      modifies this`local
      ensures Valid() && ok == (|old(local)| + 1 < RING)
      ensures local == if ok then old(local) + [m] else old(local)
    {
      ok := |local| + 1 < RING;
      if ok {
        local := local + [m];
      }
    }

    method CommitPackets(space: Space) returns (ok: bool)
      requires Valid()
      modifies this`at, this`local, this`queue
      ensures Valid() && View() == Commit(old(View()), space)
      ensures ok == Committed(old(View()), space)
    {
      ghost var was := View();
      MovedNothing(was);
      hide Moved, FirstPart;
      var n := |local|;
      if n == 0 {
        return true;
      }
      var first := FirstPart(at, n);
      if space.room < first {
        WholePart(at, n);
        return false;
      }
      if at + n < RING {
        WholePart(at, n);
        MoveOn(n);
        return true;
      }
      MovedTwice(was, first, n - first);
      MoveOn(first);
      var room := space.room - first + space.freed;
      if room == 0 || n - first > room {
        return false;
      }
      MoveOn(n - first);
      return true;
    }

    // The front notices are copied and the read index follows.
    method MoveOn(k: nat)
      requires Valid() && k <= |local|
      modifies this`at, this`local, this`queue
      ensures Valid() && View() == Moved(old(View()), k)
    {
      queue := queue + local[..k];
      local := local[k..];
      at := (at + k) % RING;
    }

    // FreeSession and FreeSessionToPool.
    method GiveBack(id: nat)
      requires Valid()
      modifies this`free, this`held
      ensures Valid() && View() == old(View()).(free := old(View()).free + 1, held := old(View()).held - {id})
    {
      held := held - {id};
      free := free + 1;
    }

    // Takes the packet of a notice.
    method GetOneAcceptedPacket()
      requires Valid()
      modifies this`idle, this`made
      ensures Valid() && View() == Fetch(old(View()))
    {
      if idle > 0 {
        idle := idle - 1;
      } else {
        made := made + 1;
      }
    }

    // The close thread's ring takes the session if it has room.
    method AppendToClose(id: nat, room: bool) returns (ok: bool)
      modifies this`closing
      ensures ok == room
      ensures closing == if room then old(closing) + [id] else old(closing)
    {
      if room {
        closing := closing + [id];
      }
      return room;
    }

    // What happens when the epoll binding or the registration for reading
    // failed.
    method TellClosed(id: nat, o: Outcome)
      requires Valid() && id in held && o.Client?
      modifies this`at, this`local, this`queue, this`closing, this`held
      ensures Valid()
      ensures View() == HandOver(old(View()), id, old(held)[id], o)
    {
      hide Copy, Commit, Committed;
      assert local + [] == local;
      ghost var was := View();
      var queued := AddNotice(Disconnect(id));
      assert View() == was.(local := was.local + if Fits(was) then [Disconnect(id)] else []);
      var told := CommitPackets(o.againSpace);
      var appended := AppendToClose(id, o.room);
      held := held[id := held[id].(closing := true)];
    }

    // Undoes the two bindings and returns the session.
    method UnbindAndGiveBack(id: nat)
      requires Valid() && HasThreads(View(), id)
      modifies this`free, this`held, recvThreads.counts, sendThreads.counts
      ensures Valid() && View() == Undone(old(View()), id)
    {
      var sendBound := sendThreads.UnBindThread(held[id].send);
      var recvBound := recvThreads.UnBindThread(held[id].recv);
      GiveBack(id);
    }

    method BindEpoll(id: nat, o: Outcome)
      requires Valid() && o.Client? && HasThreads(View(), id)
      modifies this`held, this`at, this`local, this`queue, this`closing, epollThreads.counts
      ensures Valid() && View() == EpollNext(old(View()), id, o)
    {
      hide Selected, Copy, HandOver;
      var e := epollThreads.BindThread();
      if e == -1 {
        TellClosed(id, o);
        return;
      }
      held := held[id := held[id].(epoll := e)];
      if !o.registered {
        TellClosed(id, o);
        return;
      }
      held := held[id := held[id].(registered := true)];
    }

    method Announce(id: nat, o: Outcome)
      requires Valid() && o.Client? && HasThreads(View(), id)
      modifies this`free, this`held, this`at, this`local, this`queue, this`closing, this`orphans
      modifies recvThreads.counts, sendThreads.counts, epollThreads.counts
      ensures Valid() && View() == AnnounceNext(old(View()), id, o)
    {
      hide Selected, Copy, EpollNext, Undone;
      var queued := AddNotice(Connect(id));
      if !queued {
        UnbindAndGiveBack(id);
        return;
      }
      var committed := CommitPackets(o.space);
      if !committed {
        UnbindAndGiveBack(id);
        orphans := orphans + {id};
        return;
      }
      BindEpoll(id, o);
    }

    // Binds the two threads and announces the session.
    method Acquire(id: nat, o: Outcome)
      requires Valid() && o.Client? && id in held
      modifies this`free, this`held, this`at, this`local, this`queue, this`closing, this`orphans, this`idle, this`made
      modifies recvThreads.counts, sendThreads.counts, epollThreads.counts
      ensures Valid() && View() == AcquireNext(old(View()), id, o)
    {
      hide Selected, AnnounceNext, Fetch;
      var r := recvThreads.BindThread();
      if r == -1 {
        GiveBack(id);
        return;
      }
      held := held[id := held[id].(recv := r)];
      var d := sendThreads.BindThread();
      if d == -1 {
        var bound := recvThreads.UnBindThread(r);
        GiveBack(id);
        return;
      }
      held := held[id := held[id].(send := d)];
      GetOneAcceptedPacket();
      Announce(id, o);
    }

    method AcceptOne(o: Outcome)
      requires Valid()
      modifies this`free, this`next, this`held, this`at, this`local, this`queue, this`closing, this`orphans, this`idle, this`made
      modifies recvThreads.counts, sendThreads.counts, epollThreads.counts
      ensures Valid() && View() == AcceptNext(old(View()), o)
    {
      hide AcquireNext;
      if !o.Client? || !o.nonblocking {
        return;
      }
      if free == 0 {
        return;
      }
      var id := next;
      free, next := free - 1, next + 1;
      held := held[id := FRESH];
      Acquire(id, o);
    }

    method ThreadDoing(script: seq<Outcome>)
      requires Valid()
      modifies this`free, this`next, this`held, this`at, this`local, this`queue, this`closing, this`orphans, this`idle, this`made
      modifies recvThreads.counts, sendThreads.counts, epollThreads.counts
      ensures Valid() && View() == ThreadRun(old(View()), script)
    {
      hide AcceptNext;
      var i := 0;
      while i < |script|
        invariant 0 <= i <= |script| && Valid()
        invariant ThreadRun(View(), script[i..]) == ThreadRun(old(View()), script)
      {
        if script[i].Stop? || script[i].Broken? {
          break;
        }
        assert script[i..][1..] == script[i + 1..];
        AcceptOne(script[i]);
        i := i + 1;
      }
    }
  }

  function Started(sessions: nat, packets: nat, recv: nat, send: nat, epoll: nat): State {
    State(sessions, 1, map[], Zeros(recv), Zeros(send), Zeros(epoll), packets, 0, 0, [], [], [], {})
  }

  // ---- Rollback ----------------------------------------------------------------------

  lemma {:induction false} UpDown(counts: seq<int>, t: int)
    requires 0 <= t < |counts|
    ensures Down(Up(counts, t), t) == counts
  {
  }

  // Every rollback gives back exactly what was acquired, except the packet: a
  // notice that was not queued loses it, and one that was keeps it.
  lemma {:induction false} RollbackIsExact(s: State, o: Outcome)
    requires s.next !in s.held
    ensures AcceptNext(s, o) == TurnResult(s, o)
  {
    hide Selected, Fetch, AnnounceNext, KeptResult, Commit, Committed;
    if o.Client? && o.nonblocking && s.free > 0 {
      var id := s.next;
      var r, d := Selected(s.recv), Selected(s.send);
      assert s.held[id := FRESH] - {id} == s.held;
      if r != -1 {
        UpDown(s.recv, r);
        var p := FRESH.(recv := r);
        assert s.held[id := FRESH][id := p] == s.held[id := p] && s.held[id := p] - {id} == s.held;
        if d != -1 {
          assert s.held[id := p][id := p.(send := d)] == s.held[id := p.(send := d)];
          AnnounceIsExact(s, o, r, d);
        }
      }
    }
  }

  lemma {:induction false} FetchTouches(s: State, t: State)
    requires s.idle == t.idle && s.made == t.made
    ensures Fetch(s) == s.(idle := Fetch(t).idle, made := Fetch(t).made)
  {
  }

  // A commit touches the two queues of notices alone, and depends on them alone.
  lemma {:induction false} CommitTouches(s: State, t: State, space: Space)
    requires s.at == t.at && s.local == t.local && s.queue == t.queue
    ensures var u := Commit(t, space); Commit(s, space) == s.(at := u.at, local := u.local, queue := u.queue)
    ensures Committed(s, space) == Committed(t, space)
  {
  }

  lemma {:induction false} AnnounceIsExact(s: State, o: Outcome, r: int, d: int)
    requires s.next !in s.held && o.Client? && o.nonblocking && s.free > 0
    requires r == Selected(s.recv) && d == Selected(s.send) && r != -1 && d != -1
    ensures var id := s.next;
      var s3 := s.(free := s.free - 1, next := id + 1, recv := Up(s.recv, r), send := Up(s.send, d),
                   held := s.held[id := FRESH.(recv := r, send := d)]);
      AnnounceNext(Fetch(s3), id, o) == TurnResult(s, o)
  {
    hide Selected, Commit, Committed, EpollNext, KeptResult, Fetch, Up, Down;
    var id := s.next;
    var held := s.held[id := FRESH.(recv := r, send := d)];
    assert held - {id} == s.held;
    UpDown(s.recv, r);
    UpDown(s.send, d);
    var back := s.(next := id + 1);
    var s3 := back.(free := s.free - 1, recv := Up(s.recv, r), send := Up(s.send, d), held := held);
    FetchTouches(s3, back);
    FetchTouches(back, back);
    if Fits(s) {
      var full, plain := Fetch(s3).(local := s.local + [Connect(id)]), Fetch(back).(local := s.local + [Connect(id)]);
      CommitTouches(full, plain, o.space);
      CommitTouches(plain, plain, o.space);
      var sent := Commit(plain, o.space);
      if Committed(plain, o.space) {
        EpollIsExact(sent.(free := s.free - 1, recv := Up(s.recv, r), send := Up(s.send, d)), id, r, d, o);
      }
    }
  }

  lemma {:induction false} HandOverReplaces(s: State, id: nat, old': Session, new': Session, o: Outcome)
    requires o.Client?
    ensures HandOver(s.(held := s.held[id := old']), id, new', o) == HandOver(s, id, new', o)
  {
    hide Copy;
    assert s.held[id := old'][id := new'.(closing := true)] == s.held[id := new'.(closing := true)];
  }

  lemma {:induction false} EpollIsExact(s: State, id: nat, r: int, d: int, o: Outcome)
    requires id !in s.held && o.Client? && 0 <= r < |s.recv| && 0 <= d < |s.send|
    ensures EpollNext(s.(held := s.held[id := FRESH.(recv := r, send := d)]), id, o) == KeptResult(s, id, r, d, o)
  {
    hide Selected, HandOver;
    var e := Selected(s.epoll);
    var p := FRESH.(recv := r, send := d);
    if e == -1 {
      HandOverReplaces(s, id, p, p, o);
    } else {
      var q := p.(epoll := e);
      var bound := s.(epoll := Up(s.epoll, e));
      assert s.held[id := p][id := q] == s.held[id := q];
      assert s.held[id := q][id := q.(registered := true)] == s.held[id := q.(registered := true)];
      HandOverReplaces(bound, id, q, q, o);
    }
  }

  // ---- What holds at every loop head ---------------------------------------------------

  function Recvs(held: map<nat, Session>): map<nat, int> {
    map id <- held :: held[id].recv
  }

  function Sends(held: map<nat, Session>): map<nat, int> {
    map id <- held :: held[id].send
  }

  function Epolls(held: map<nat, Session>): map<nat, int> {
    map id <- held :: held[id].epoll
  }

  // A session taken and not returned has a receive and a send thread, and it
  // is flagged as handed to the close thread exactly when it has no epoll thread
  // or is not registered for reading. The close thread has no other session.
  ghost predicate Settled(s: State, id: nat) {
    id in s.held ==>
      var p := s.held[id];
      && id < s.next
      && 0 <= p.recv < |s.recv| && 0 <= p.send < |s.send| && -1 <= p.epoll < |s.epoll|
      && (p.closing <==> p.epoll == -1 || !p.registered)
      && (id in s.closing ==> p.closing)
  }

  // Each thread's count is the number of sessions taken that note it.
  ghost predicate Counted(s: State, t: int) {
    && (0 <= t < |s.recv| ==> s.recv[t] == |Holders(Recvs(s.held), t)|)
    && (0 <= t < |s.send| ==> s.send[t] == |Holders(Sends(s.held), t)|)
    && (0 <= t < |s.epoll| ==> s.epoll[t] == |Holders(Epolls(s.held), t)|)
  }

  // A connection is announced exactly once for each session taken, and once for
  // each session given back because its commit reported failure.
  ghost predicate Announced(s: State, id: nat) {
    && multiset(s.local)[Connect(id)] + multiset(s.queue)[Connect(id)] == Once(id in s.held || id in s.orphans)
    && (id in s.orphans ==> id !in s.held && id < s.next)
    && (id in s.closing ==> id in s.held)
  }

  ghost predicate Inv(s: State, sessions: nat) {
    && InRing(s)
    && s.free + |s.held| == sessions
    && (forall id: nat :: Settled(s, id) && Announced(s, id))
    && (forall t: int :: Counted(s, t))
  }

  lemma {:induction false} ProjectionsUpdate(held: map<nat, Session>, id: nat, p: Session)
    ensures Recvs(held[id := p]) == Recvs(held)[id := p.recv]
    ensures Sends(held[id := p]) == Sends(held)[id := p.send]
    ensures Epolls(held[id := p]) == Epolls(held)[id := p.epoll]
  {
  }

  lemma {:induction false} CommitMoves(s: State, space: Space, m: Notice)
    ensures var t := Commit(s, space);
      multiset(t.local)[m] + multiset(t.queue)[m] == multiset(s.local)[m] + multiset(s.queue)[m]
  {
    var k := Copy(s.at, |s.local|, space).0;
    assert s.local == s.local[..k] + s.local[k..];
    assert multiset(s.local) == multiset(s.local[..k]) + multiset(s.local[k..]);
    assert multiset(s.queue + s.local[..k]) == multiset(s.queue) + multiset(s.local[..k]);
  }

  // One more session is taken, with its threads.
  predicate Takes(s: State, t: State, id: nat, o: Outcome) {
    && t.free == s.free - 1 && s.free > 0 && id in t.held && t.next == id + 1
    && t.orphans == s.orphans
    && var p := t.held[id];
    && t.held == s.held[id := p]
    && 0 <= p.recv < |s.recv| && 0 <= p.send < |s.send| && -1 <= p.epoll < |s.epoll|
    && t.recv == Up(s.recv, p.recv) && t.send == Up(s.send, p.send)
    && t.epoll == (if p.epoll == -1 then s.epoll else Up(s.epoll, p.epoll))
    && (p.closing <==> p.epoll == -1 || !p.registered)
    && t.closing == (if p.closing && o.Client? && o.room then s.closing + [id] else s.closing)
  }

  lemma {:induction false} KeptTakes(s: State, taken: State, r: int, d: int, o: Outcome)
    requires o.Client? && s.free > 0 && 0 <= r < |s.recv| && 0 <= d < |s.send|
    requires taken.held == s.held && taken.closing == s.closing && taken.orphans == s.orphans && taken.epoll == s.epoll
    requires taken.free == s.free - 1 && taken.next == s.next + 1
    requires taken.recv == Up(s.recv, r) && taken.send == Up(s.send, d)
    ensures Takes(s, KeptResult(taken, s.next, r, d, o), s.next, o)
  {
    hide Selected, Up;
  }

  // What a turn does to the sessions taken: nothing, or one more is taken.
  lemma {:induction false} TurnTakes(s: State, o: Outcome)
    ensures var t := TurnResult(s, o); var id := s.next;
      if t.free == s.free
      then
        && t.held == s.held && t.recv == s.recv && t.send == s.send && t.epoll == s.epoll && t.closing == s.closing
        && s.next <= t.next <= id + 1
      else Takes(s, t, id, o)
  {
    hide Selected, KeptResult, Commit, Fetch, Takes;
    if o.Client? && o.nonblocking && s.free > 0 {
      var id := s.next;
      var r, d := Selected(s.recv), Selected(s.send);
      var back := s.(next := id + 1);
      FetchTouches(back, back);
      var full := Fetch(back).(local := s.local + [Connect(id)]);
      CommitTouches(full, full, o.space);
      var sent := Commit(full, o.space);
      if r != -1 && d != -1 && Fits(s) && Committed(full, o.space) {
        var taken := sent.(free := s.free - 1, recv := Up(s.recv, r), send := Up(s.send, d));
        KeptTakes(s, taken, r, d, o);
        TakesOne(s, KeptResult(taken, id, r, d, o), o);
      }
    }
  }

  lemma {:induction false} TakesOne(s: State, t: State, o: Outcome)
    requires Takes(s, t, s.next, o)
    ensures t.free != s.free
  {
  }

  lemma {:induction false} TurnCounted(s: State, o: Outcome, t: int)
    requires Counted(s, t) && s.next !in s.held
    ensures Counted(TurnResult(s, o), t)
  {
    hide Holders, TurnResult, Recvs, Sends, Epolls;
    TurnTakes(s, o);
    var s' := TurnResult(s, o);
    if s'.free != s.free {
      var p := s'.held[s.next];
      ProjectionsUpdate(s.held, s.next, p);
      ProjectionsHave(s.held, s.next);
      HoldersUpdate(Recvs(s.held), s.next, p.recv, t);
      HoldersUpdate(Sends(s.held), s.next, p.send, t);
      HoldersUpdate(Epolls(s.held), s.next, p.epoll, t);
    }
  }

  lemma {:induction false} ProjectionsHave(held: map<nat, Session>, id: nat)
    requires id !in held
    ensures id !in Recvs(held) && id !in Sends(held) && id !in Epolls(held)
  {
  }

  lemma {:induction false} TurnSettled(s: State, o: Outcome, id: nat)
    requires Settled(s, id) && Announced(s, s.next)
    ensures Settled(TurnResult(s, o), id)
  {
    hide TurnResult;
    TurnTakes(s, o);
  }

  function Seen(s: State, id: nat): nat {
    multiset(s.local)[Connect(id)] + multiset(s.queue)[Connect(id)]
  }

  lemma {:induction false} FullSeen(s: State, n: nat, m: Notice, id: nat)
    ensures Seen(s.(next := n, local := s.local + [m]), id) == Seen(s, id) + Once(m == Connect(id))
  {
    assert multiset(s.local + [m]) == multiset(s.local) + multiset{m};
  }

  lemma {:induction false} HandOverSeen(s: State, n: nat, p: Session, o: Outcome, id: nat)
    requires o.Client?
    ensures Seen(HandOver(s, n, p, o), id) == Seen(s, id)
    ensures HandOver(s, n, p, o).orphans == s.orphans
  {
    hide Commit;
    var t := s.(local := s.local + if Fits(s) then [Disconnect(n)] else []);
    CommitMoves(t, o.againSpace, Connect(id));
    FullSeen(s, s.next, Disconnect(n), id);
    if !Fits(s) {
      assert t.local == s.local;
    }
    CommitTouches(t, t, o.againSpace);
  }

  lemma {:induction false} TurnSeen(s: State, o: Outcome, id: nat)
    requires s.next !in s.orphans
    ensures var t := TurnResult(s, o);
      && Seen(t, id) == Seen(s, id) + Once(id == s.next && (t.free != s.free || s.next in t.orphans - s.orphans))
      && (t.orphans == s.orphans || (t.orphans == s.orphans + {s.next} && t.free == s.free && t.next == s.next + 1))
  {
    hide Selected, Commit, Committed, KeptResult, Seen;
    if o.Client? && o.nonblocking && s.free > 0 && Fits(s) && Selected(s.recv) != -1 && Selected(s.send) != -1 {
      var n := s.next;
      var full := Fetch(s.(next := n + 1)).(local := s.local + [Connect(n)]);
      FullSeen(s, n + 1, Connect(n), id);
      SameSeen(s.(next := n + 1, local := s.local + [Connect(n)]), full, id);
      CommitSeen(full, o.space, id);
      var sent := Commit(full, o.space);
      CommitTouches(full, full, o.space);
      if Committed(full, o.space) {
        TakenSeen(s, o, sent, id);
      } else {
        SameSeen(sent, TurnResult(s, o), id);
      }
    } else {
      SameSeen(s, TurnResult(s, o), id);
    }
  }

  lemma {:induction false} SameSeen(s: State, t: State, id: nat)
    requires s.local == t.local && s.queue == t.queue
    ensures Seen(s, id) == Seen(t, id)
  {
  }

  lemma {:induction false} CommitSeen(s: State, space: Space, id: nat)
    ensures Seen(Commit(s, space), id) == Seen(s, id)
  {
    CommitMoves(s, space, Connect(id));
  }

  lemma {:induction false} KeptSeen(s: State, n: nat, r: int, d: int, o: Outcome, id: nat)
    requires o.Client?
    ensures var t := KeptResult(s, n, r, d, o);
      Seen(t, id) == Seen(s, id) && t.orphans == s.orphans && t.free == s.free
  {
    hide Selected, HandOver, Seen;
    var e := Selected(s.epoll);
    HandOverFree(s, n, Session(r, d, -1, false, false), o);
    HandOverSeen(s, n, Session(r, d, -1, false, false), o, id);
    if e != -1 {
      var bound := s.(epoll := Up(s.epoll, e));
      SameSeen(s, bound, id);
      HandOverFree(bound, n, Session(r, d, e, false, false), o);
      HandOverSeen(bound, n, Session(r, d, e, false, false), o, id);
      SameSeen(s, bound.(held := bound.held[n := Session(r, d, e, true, false)]), id);
    }
  }

  lemma {:induction false} TakenSeen(s: State, o: Outcome, sent: State, id: nat)
    requires o.Client? && o.nonblocking && s.free > 0 && Fits(s) && Selected(s.recv) != -1 && Selected(s.send) != -1
    requires var full := Fetch(s.(next := s.next + 1)).(local := s.local + [Connect(s.next)]);
      sent == Commit(full, o.space) && Committed(full, o.space)
    requires sent.orphans == s.orphans
    ensures var t := TurnResult(s, o); Seen(t, id) == Seen(sent, id) && t.orphans == s.orphans && t.free != s.free
  {
    hide Selected, Commit, Committed, Fetch, KeptResult, Seen;
    var r, d := Selected(s.recv), Selected(s.send);
    var taken := sent.(free := s.free - 1, recv := Up(s.recv, r), send := Up(s.send, d));
    SameSeen(sent, taken, id);
    KeptSeen(taken, s.next, r, d, o, id);
  }

  lemma {:induction false} HandOverFree(s: State, n: nat, p: Session, o: Outcome)
    requires o.Client?
    ensures HandOver(s, n, p, o).free == s.free
  {
  }

  lemma {:induction false} TurnAnnounced(s: State, o: Outcome, id: nat)
    requires Announced(s, id) && Announced(s, s.next) && Settled(s, s.next)
    ensures Announced(TurnResult(s, o), id)
  {
    hide TurnResult, Seen;
    TurnTakes(s, o);
    TurnSeen(s, o, id);
    SeenIs(s, id);
    SeenIs(TurnResult(s, o), id);
  }

  lemma {:induction false} SeenIs(s: State, id: nat)
    ensures Seen(s, id) == multiset(s.local)[Connect(id)] + multiset(s.queue)[Connect(id)]
  {
  }

  lemma {:induction false} TurnKeeps(s: State, o: Outcome, sessions: nat)
    requires Inv(s, sessions)
    ensures Inv(AcceptNext(s, o), sessions)
  {
    hide Settled, Announced, Counted, TurnResult, AcceptNext, InRing;
    TurnRing(s, o);
    NextIsNew(s);
    RollbackIsExact(s, o);
    var t := TurnResult(s, o);
    TurnPool(s, o);
    forall id: nat
      ensures Settled(t, id) && Announced(t, id)
    {
      TurnSettled(s, o, id);
      TurnAnnounced(s, o, id);
    }
    forall u: int
      ensures Counted(t, u)
    {
      TurnCounted(s, o, u);
    }
  }

  lemma {:induction false} NextIsNew(s: State)
    requires Settled(s, s.next)
    ensures s.next !in s.held
  {
  }

  lemma {:induction false} TurnPool(s: State, o: Outcome)
    requires s.next !in s.held
    ensures var t := TurnResult(s, o); t.free + |t.held| == s.free + |s.held|
  {
    hide TurnResult;
    TurnTakes(s, o);
    var t := TurnResult(s, o);
    if t.free != s.free {
      assert t.held.Keys == s.held.Keys + {s.next};
    }
  }

  lemma {:induction false} RunKeeps(s: State, script: seq<Outcome>, sessions: nat)
    requires Inv(s, sessions)
    ensures Inv(ThreadRun(s, script), sessions)
    decreases |script|
  {
    hide Inv, AcceptNext;
    if script != [] && !script[0].Stop? && !script[0].Broken? {
      TurnKeeps(s, script[0], sessions);
      RunKeeps(AcceptNext(s, script[0]), script[1..], sessions);
    }
  }

  // The transaction law, for every outcome of every step at every turn.
  lemma {:induction false} AcceptTransactions(sessions: nat, packets: nat, recv: nat, send: nat, epoll: nat,
                                              script: seq<Outcome>)
    ensures Inv(ThreadRun(Started(sessions, packets, recv, send, epoll), script), sessions)
  {
    hide ThreadRun;
    StartKept(sessions, packets, recv, send, epoll);
    RunKeeps(Started(sessions, packets, recv, send, epoll), script, sessions);
  }

  lemma {:induction false} StartKept(sessions: nat, packets: nat, recv: nat, send: nat, epoll: nat)
    ensures Inv(Started(sessions, packets, recv, send, epoll), sessions)
  {
    var s := Started(sessions, packets, recv, send, epoll);
    forall t: int
      ensures Counted(s, t)
    {
      assert Holders(Recvs(map[]), t) == {} && Holders(Sends(map[]), t) == {} && Holders(Epolls(map[]), t) == {};
    }
  }

  // ---- What reaches the close thread ---------------------------------------------------

  predicate Goes(script: seq<Outcome>) {
    script != [] && !script[0].Stop? && !script[0].Broken?
  }

  // The outcome of the turn that took a session.
  ghost function TakenBy(s: State, script: seq<Outcome>, id: nat): (o: Outcome)
    requires id !in s.held && id in ThreadRun(s, script).held
    decreases |script|
  {
    if id in AcceptNext(s, script[0]).held then script[0] else TakenBy(AcceptNext(s, script[0]), script[1..], id)
  }

  // A turn leaves the sessions taken before it as they are, with the close
  // thread or not.
  lemma {:induction false} TurnLeaves(s: State, o: Outcome, id: nat)
    requires id in s.held && Settled(s, id) && s.next !in s.held
    ensures var t := AcceptNext(s, o);
      && id in t.held && t.held[id] == s.held[id]
      && (id in t.closing <==> id in s.closing)
  {
    hide TurnResult, AcceptNext;
    RollbackIsExact(s, o);
    TurnTakes(s, o);
  }

  lemma {:induction false} RunLeaves(s: State, script: seq<Outcome>, id: nat, sessions: nat)
    requires Inv(s, sessions) && id in s.held
    ensures var t := ThreadRun(s, script);
      && id in t.held && t.held[id] == s.held[id]
      && (id in t.closing <==> id in s.closing)
    decreases |script|
  {
    hide AcceptNext, Settled, Inv;
    if Goes(script) {
      InvSettles(s, id, sessions);
      TurnLeaves(s, script[0], id);
      TurnKeeps(s, script[0], sessions);
      RunLeaves(AcceptNext(s, script[0]), script[1..], id, sessions);
    }
  }

  lemma {:induction false} InvSettles(s: State, id: nat, sessions: nat)
    requires Inv(s, sessions)
    ensures Settled(s, id) && Announced(s, id) && s.next !in s.held
  {
    assert Settled(s, s.next);
  }

  lemma {:induction false} TurnHandsOver(s: State, o: Outcome, id: nat)
    requires Announced(s, id) && s.next !in s.held && id !in s.held && id in AcceptNext(s, o).held
    ensures o.Client?
    ensures var t := AcceptNext(s, o); id in t.closing <==> t.held[id].closing && o.room
  {
    hide AcceptNext;
    RollbackIsExact(s, o);
    TurnTakes(s, o);
    assert o.Client? && id == s.next;
  }

  lemma {:induction false} HandedOverFrom(s: State, script: seq<Outcome>, id: nat, sessions: nat)
    requires Inv(s, sessions) && id !in s.held && id in ThreadRun(s, script).held
    ensures var t := ThreadRun(s, script); var o := TakenBy(s, script, id);
      && o.Client?
      && (id in t.closing <==> (t.held[id].epoll == -1 || !t.held[id].registered) && o.room)
    decreases |script|
  {
    hide AcceptNext, Settled, Inv, Announced;
    var u := AcceptNext(s, script[0]);
    InvSettles(s, id, sessions);
    TurnKeeps(s, script[0], sessions);
    if id in u.held {
      TurnHandsOver(s, script[0], id);
      RunLeaves(u, script[1..], id, sessions);
      InvSettles(u, id, sessions);
      FlagIsFailure(u, id);
    } else {
      HandedOverFrom(u, script[1..], id, sessions);
    }
  }

  lemma {:induction false} FlagIsFailure(s: State, id: nat)
    requires Settled(s, id) && id in s.held
    ensures s.held[id].closing <==> s.held[id].epoll == -1 || !s.held[id].registered
  {
  }

  // Over every run: a session that was taken and not returned is with the close
  // thread exactly when its epoll binding or its registration for reading failed
  // and the close thread's ring had room in that turn.
  lemma {:induction false} HandedOver(sessions: nat, packets: nat, recv: nat, send: nat, epoll: nat,
                                      script: seq<Outcome>, id: nat)
    requires id in ThreadRun(Started(sessions, packets, recv, send, epoll), script).held
    ensures var s := Started(sessions, packets, recv, send, epoll); var t, o := ThreadRun(s, script), TakenBy(s, script, id);
      && o.Client?
      && (id in t.closing <==> (t.held[id].epoll == -1 || !t.held[id].registered) && o.room)
  {
    hide ThreadRun, TakenBy, Inv;
    StartKept(sessions, packets, recv, send, epoll);
    HandedOverFrom(Started(sessions, packets, recv, send, epoll), script, id, sessions);
  }

  // A session that is flagged as handed over and that nobody has.
  predicate Stranded(s: State, id: nat) {
    id in s.held && s.held[id].closing && id !in s.closing
  }

  // What must come together: the notice is queued and moved on, the epoll binding
  // or the registration fails, and the ring of the close thread is full.
  predicate Strands(s: State, o: Outcome) {
    && o.Client? && o.nonblocking && s.free > 0
    && Selected(s.recv) != -1 && Selected(s.send) != -1
    && Fits(s) && Copy(s.at, |s.local| + 1, o.space).1
    && (Selected(s.epoll) == -1 || !o.registered)
    && !o.room
  }

  lemma {:induction false} StrandedTurn(s: State, o: Outcome, sessions: nat)
    requires Inv(s, sessions)
    ensures Stranded(AcceptNext(s, o), s.next) <==> Strands(s, o)
  {
    InvSettles(s, s.next, sessions);
    hide AcceptNext, TurnResult, Inv, Counted, Selected, Settled, KeptResult, Commit, Committed, Copy, Fetch;
    RollbackIsExact(s, o);
    if o.Client? && o.nonblocking && s.free > 0 {
      StrandedResult(s, o);
    } else {
      NothingTaken(s, o);
    }
  }

  lemma {:induction false} NothingTaken(s: State, o: Outcome)
    requires !(o.Client? && o.nonblocking && s.free > 0)
    ensures TurnResult(s, o) == s
  {
  }

  lemma {:induction false} StrandedResult(s: State, o: Outcome)
    requires o.Client? && o.nonblocking && s.free > 0 && s.next !in s.held && s.next !in s.closing
    ensures Stranded(TurnResult(s, o), s.next) <==> Strands(s, o)
  {
    hide Selected, KeptResult, Copy, Fetch, Stranded;
    var id := s.next;
    var r, d := Selected(s.recv), Selected(s.send);
    var back := s.(next := id + 1);
    FetchTouches(back, back);
    var full := Fetch(back).(local := s.local + [Connect(id)]);
    CommitTouches(full, full, o.space);
    var sent := Commit(full, o.space);
    hide Commit;
    if r != -1 && d != -1 && Fits(s) && Committed(full, o.space) {
      StrandedKept(sent.(free := s.free - 1, recv := Up(s.recv, r), send := Up(s.send, d)), id, r, d, o);
    } else {
      NotHeldNotStranded(TurnResult(s, o), id);
    }
  }

  lemma {:induction false} NotHeldNotStranded(s: State, id: nat)
    requires id !in s.held
    ensures !Stranded(s, id)
  {
  }

  lemma {:induction false} StrandedKept(s: State, id: nat, r: int, d: int, o: Outcome)
    requires o.Client? && id !in s.closing
    ensures Stranded(KeptResult(s, id, r, d, o), id) <==> (Selected(s.epoll) == -1 || !o.registered) && !o.room
  {
    hide Selected, Copy;
  }

  lemma {:induction false} RunStep(s: State, o: Outcome, script: seq<Outcome>)
    requires o.Client?
    ensures ThreadRun(s, [o] + script) == ThreadRun(AcceptNext(s, o), script)
  {
    assert ([o] + script)[1..] == script;
  }

  // A script in which the loop goes on.
  predicate GoesOn(script: seq<Outcome>) {
    forall i :: 0 <= i < |script| ==> !script[i].Stop? && !script[i].Broken?
  }

  lemma {:induction false} RunConcat(s: State, a: seq<Outcome>, b: seq<Outcome>)
    requires GoesOn(a)
    ensures ThreadRun(s, a + b) == ThreadRun(ThreadRun(s, a), b)
    decreases |a|
  {
    hide AcceptNext;
    if a == [] {
      assert a + b == b;
    } else {
      assert (a + b)[1..] == a[1..] + b;
      RunConcat(AcceptNext(s, a[0]), a[1..], b);
    }
  }

  // After any run a turn strands its session exactly when those conditions meet,
  // and then, whatever comes after, the session stays taken and nobody ever
  // closes it.
  lemma {:induction false} StrandedForGood(sessions: nat, packets: nat, recv: nat, send: nat, epoll: nat,
                                           before: seq<Outcome>, o: Outcome, after: seq<Outcome>)
    requires GoesOn(before)
    ensures var s0 := Started(sessions, packets, recv, send, epoll); var s := ThreadRun(s0, before);
      && (Stranded(AcceptNext(s, o), s.next) <==> Strands(s, o))
      && (Strands(s, o) ==> Stranded(ThreadRun(s0, before + ([o] + after)), s.next))
  {
    hide AcceptNext, ThreadRun, Inv, Strands;
    var s0 := Started(sessions, packets, recv, send, epoll);
    var s := ThreadRun(s0, before);
    StartKept(sessions, packets, recv, send, epoll);
    RunKeeps(s0, before, sessions);
    StrandedTurn(s, o, sessions);
    if Strands(s, o) {
      IsClient(s, o);
      TurnKeeps(s, o, sessions);
      RunLeaves(AcceptNext(s, o), after, s.next, sessions);
      RunConcat(s0, before, [o] + after);
      RunStep(s, o, after);
    }
  }

  lemma {:induction false} IsClient(s: State, o: Outcome)
    requires Strands(s, o)
    ensures o.Client?
  {
  }

  // ---- The packets of the notices -----------------------------------------------------

  function Connects(ns: seq<Notice>): nat {
    if ns == [] then 0 else (if ns[0].Connect? then 1 else 0) + Connects(ns[1..])
  }

  lemma {:induction false} ConnectsConcat(xs: seq<Notice>, ys: seq<Notice>)
    ensures Connects(xs + ys) == Connects(xs) + Connects(ys)
  {
    if xs == [] {
      assert xs + ys == ys;
    } else {
      assert (xs + ys)[1..] == xs[1..] + ys;
      ConnectsConcat(xs[1..], ys);
    }
  }

  // The packets in the pool and in notices, queued here or moved on.
  function Packets(s: State): nat {
    s.idle + Connects(s.local) + Connects(s.queue)
  }

  // Both threads were bound and the notice was not queued.
  predicate Loses(s: State, o: Outcome) {
    && o.Client? && o.nonblocking && s.free > 0
    && Selected(s.recv) != -1 && Selected(s.send) != -1
    && !Fits(s)
  }

  function Losses(s: State, script: seq<Outcome>): nat
    decreases |script|
  {
    if !Goes(script) then 0
    else (if Loses(s, script[0]) then 1 else 0) + Losses(AcceptNext(s, script[0]), script[1..])
  }

  lemma {:induction false} CommitPacketsKept(s: State, space: Space)
    ensures Packets(Commit(s, space)) == Packets(s) && Commit(s, space).made == s.made
  {
    var k := Copy(s.at, |s.local|, space).0;
    assert s.local == s.local[..k] + s.local[k..];
    ConnectsConcat(s.local[..k], s.local[k..]);
    ConnectsConcat(s.queue, s.local[..k]);
  }

  lemma {:induction false} QueuedPackets(s: State, ns: seq<Notice>)
    ensures Packets(s.(local := s.local + ns)) == Packets(s) + Connects(ns)
  {
    ConnectsConcat(s.local, ns);
  }

  lemma {:induction false} HandOverPackets(s: State, n: nat, p: Session, o: Outcome)
    requires o.Client?
    ensures Packets(HandOver(s, n, p, o)) == Packets(s) && HandOver(s, n, p, o).made == s.made
  {
    hide Commit, Packets;
    var ns := if Fits(s) then [Disconnect(n)] else [];
    assert Connects(ns) == 0;
    QueuedPackets(s, ns);
    var t := s.(local := s.local + ns);
    CommitPacketsKept(t, o.againSpace);
    SamePackets(Commit(t, o.againSpace), HandOver(s, n, p, o));
  }

  lemma {:induction false} SamePackets(s: State, t: State)
    requires s.idle == t.idle && s.local == t.local && s.queue == t.queue
    ensures Packets(s) == Packets(t)
  {
  }

  lemma {:induction false} FetchPackets(s: State)
    ensures var t := Fetch(s);
      && Packets(t) - t.made + 1 == Packets(s) - s.made
      && t == s.(idle := t.idle, made := t.made)
  {
  }

  // What a turn does to the packets: none is lost unless the notice was not
  // queued, and then exactly one.
  lemma {:induction false} TurnPackets(s: State, o: Outcome)
    ensures var t := TurnResult(s, o);
      Packets(t) - t.made + (if Loses(s, o) then 1 else 0) == Packets(s) - s.made
  {
    hide Selected, Commit, Committed, KeptResult, Packets, Fetch;
    if o.Client? && o.nonblocking && s.free > 0 {
      var back := s.(next := s.next + 1);
      SamePackets(s, back);
      FetchPackets(back);
      if Selected(s.recv) != -1 && Selected(s.send) != -1 && Fits(s) {
        QueuedTurnPackets(s, o);
      }
    }
  }

  lemma {:induction false} KeptPackets(s: State, n: nat, r: int, d: int, o: Outcome)
    requires o.Client?
    ensures var t := KeptResult(s, n, r, d, o); Packets(t) == Packets(s) && t.made == s.made
  {
    hide Selected, HandOver, Packets;
    var e := Selected(s.epoll);
    HandOverPackets(s, n, Session(r, d, -1, false, false), o);
    if e != -1 {
      var bound := s.(epoll := Up(s.epoll, e));
      SamePackets(s, bound);
      HandOverPackets(bound, n, Session(r, d, e, false, false), o);
      SamePackets(s, bound.(held := bound.held[n := Session(r, d, e, true, false)]));
    }
  }

  lemma {:induction false} QueuedTurnPackets(s: State, o: Outcome)
    requires o.Client? && o.nonblocking && s.free > 0 && Fits(s) && Selected(s.recv) != -1 && Selected(s.send) != -1
    ensures var t := TurnResult(s, o); Packets(t) - t.made == Packets(s) - s.made
  {
    hide Selected, Commit, Committed, KeptResult, Packets, Fetch;
    var id := s.next;
    var r, d := Selected(s.recv), Selected(s.send);
    var back := s.(next := id + 1);
    SamePackets(s, back);
    FetchPackets(back);
    assert Connects([Connect(id)]) == 1;
    QueuedPackets(Fetch(back), [Connect(id)]);
    var full := Fetch(back).(local := s.local + [Connect(id)]);
    var sent := Commit(full, o.space);
    CommitPacketsKept(full, o.space);
    if !Committed(full, o.space) {
      SamePackets(sent, TurnResult(s, o));
    } else {
      var taken := sent.(free := s.free - 1, recv := Up(s.recv, r), send := Up(s.send, d));
      SamePackets(sent, taken);
      KeptPackets(taken, id, r, d, o);
    }
  }

  lemma {:induction false} RunPackets(s: State, script: seq<Outcome>, sessions: nat)
    requires Inv(s, sessions)
    ensures var t := ThreadRun(s, script);
      Packets(t) - t.made + Losses(s, script) == Packets(s) - s.made
    decreases |script|
  {
    hide Inv, AcceptNext, TurnResult, Loses, Packets;
    if Goes(script) {
      InvSettles(s, s.next, sessions);
      RollbackIsExact(s, script[0]);
      TurnPackets(s, script[0]);
      TurnKeeps(s, script[0], sessions);
      RunPackets(AcceptNext(s, script[0]), script[1..], sessions);
    }
  }

  // Conservation of packets over every run: those in the pool, those in notices
  // and one for each turn that could not queue its notice are the ones the pool
  // was filled with and those allocated since.
  lemma {:induction false} PacketsConserved(sessions: nat, packets: nat, recv: nat, send: nat, epoll: nat,
                                            script: seq<Outcome>)
    ensures var s := Started(sessions, packets, recv, send, epoll); var t := ThreadRun(s, script);
      t.idle + Connects(t.local) + Connects(t.queue) + Losses(s, script) == packets + t.made
  {
    hide ThreadRun, Losses;
    StartKept(sessions, packets, recv, send, epoll);
    RunPackets(Started(sessions, packets, recv, send, epoll), script, sessions);
  }

  // ---- Notices that were not moved on, or were --------------------------------------------

  lemma {:induction false} CommitRing(s: State, space: Space)
    requires InRing(s)
    ensures InRing(Commit(s, space))
  {
  }

  lemma {:induction false} HandOverRing(s: State, n: nat, p: Session, o: Outcome)
    requires InRing(s) && o.Client?
    ensures InRing(HandOver(s, n, p, o))
  {
    hide Commit;
    CommitRing(s.(local := s.local + if Fits(s) then [Disconnect(n)] else []), o.againSpace);
  }

  lemma {:induction false} KeptRing(s: State, n: nat, r: int, d: int, o: Outcome)
    requires InRing(s) && o.Client?
    ensures InRing(KeptResult(s, n, r, d, o))
  {
    hide Selected, HandOver;
    var e := Selected(s.epoll);
    HandOverRing(s, n, Session(r, d, -1, false, false), o);
    if e != -1 {
      HandOverRing(s.(epoll := Up(s.epoll, e)), n, Session(r, d, e, false, false), o);
    }
  }

  lemma {:induction false} TurnRing(s: State, o: Outcome)
    requires InRing(s)
    ensures InRing(TurnResult(s, o))
  {
    hide Selected, KeptResult, Commit, Committed, Fetch;
    if o.Client? && o.nonblocking && s.free > 0 {
      var id := s.next;
      var r, d := Selected(s.recv), Selected(s.send);
      var back := s.(next := id + 1);
      FetchTouches(back, back);
      if r != -1 && d != -1 && Fits(s) {
        var full := Fetch(back).(local := s.local + [Connect(id)]);
        CommitRing(full, o.space);
        CommitTouches(full, full, o.space);
        var sent := Commit(full, o.space);
        KeptRing(sent.(free := s.free - 1, recv := Up(s.recv, r), send := Up(s.send, d)), id, r, d, o);
      }
    }
  }

  // A commit succeeds when there is nothing to move, when the notices lie before
  // the end of the ring and there is room for all, or when there is room for the
  // first part, then some more, and enough for the second. One that fails moves
  // the first part or nothing.
  lemma {:induction false} CommitExact(s: State, space: Space)
    requires InRing(s)
    ensures var t := Commit(s, space); var n, end := |s.local|, RING - s.at;
      && (Committed(s, space) <==> (
            || n == 0 || (n < end && n <= space.room)
            || (n >= end && end <= space.room && end < space.room + space.freed && n <= space.room + space.freed)))
      && |t.local| == (if Committed(s, space) then 0 else if end <= n && end <= space.room then n - end else n)
      && t.at == (s.at + n - |t.local|) % RING
      && t.queue + t.local == s.queue + s.local
  {
    CommitLog(s, space);
  }

  // A commit that reports success leaves nothing behind. One that reports failure
  // does so too in exactly one case: the notices end at the end of the ring and
  // fill the main queue, which then refuses the empty second part.
  lemma {:induction false} CommitReports(s: State, space: Space)
    requires InRing(s)
    ensures Committed(s, space) ==> Commit(s, space).local == []
    ensures !Committed(s, space) && Commit(s, space).local == []
        <==> s.local != [] && s.at + |s.local| == RING && space == Space(|s.local|, 0)
  {
  }

  // A session given back after its notice was queued is announced all the same:
  // the notice has moved on already, or does with the next commit with room.
  lemma {:induction false} OrphanIsAnnounced(s: State, space: Space, id: nat)
    requires InRing(s) && Announced(s, id) && id in s.orphans && space.room > |s.local|
    ensures id !in s.held && Connect(id) in Commit(s, space).queue
  {
    var t := Commit(s, space);
    CommitMoves(s, space, Connect(id));
    assert t.local == [];
    assert multiset(t.queue)[Connect(id)] == 1;
  }

  // ---- The order of the notices -------------------------------------------------------------

  // All notices queued so far: those moved on, then those that were not.
  function Log(s: State): seq<Notice> {
    s.queue + s.local
  }

  lemma {:induction false} CommitLog(s: State, space: Space)
    ensures Log(Commit(s, space)) == Log(s)
  {
    hide Copy;
    var k := Copy(s.at, |s.local|, space).0;
    assert s.local[..k] + s.local[k..] == s.local;
  }

  lemma {:induction false} QueuedLog(s: State, m: Notice)
    ensures Log(s.(local := s.local + [m])) == Log(s) + [m]
  {
  }

  lemma {:induction false} SameLog(s: State, t: State)
    requires s.local == t.local && s.queue == t.queue
    ensures Log(s) == Log(t)
  {
  }

  // After a commit that succeeded the notice of the disconnect always fits.
  lemma {:induction false} HandOverLog(s: State, n: nat, p: Session, o: Outcome)
    requires o.Client? && s.local == []
    ensures var t := HandOver(s, n, p, o);
      Log(t) == Log(s) + [Disconnect(n)] && n in t.held && t.held[n].closing
  {
    hide Commit, Log;
    assert Fits(s);
    var t := s.(local := s.local + [Disconnect(n)]);
    QueuedLog(s, Disconnect(n));
    CommitLog(t, o.againSpace);
    SameLog(Commit(t, o.againSpace), HandOver(s, n, p, o));
  }

  // The notices a turn adds for session `id`, read from what became of it.
  function Notices(t: State, id: nat): seq<Notice> {
    if id in t.held then if t.held[id].closing then [Connect(id), Disconnect(id)] else [Connect(id)]
    else if id in t.orphans then [Connect(id)] else []
  }

  lemma {:induction false} KeptLog(s: State, n: nat, r: int, d: int, o: Outcome)
    requires o.Client? && s.local == []
    ensures var t := KeptResult(s, n, r, d, o); n in t.held
    ensures var t := KeptResult(s, n, r, d, o);
      Log(t) == Log(s) + if t.held[n].closing then [Disconnect(n)] else []
  {
    hide Selected, HandOver, Log;
    var e := Selected(s.epoll);
    HandOverLog(s, n, Session(r, d, -1, false, false), o);
    if e != -1 {
      var bound := s.(epoll := Up(s.epoll, e));
      SameLog(s, bound);
      HandOverLog(bound, n, Session(r, d, e, false, false), o);
      SameLog(s, bound.(held := bound.held[n := Session(r, d, e, true, false)]));
    }
  }

  // A turn queues nothing, the notice of the connection, or that notice and at
  // once the notice of the disconnect: the last exactly when it keeps the session
  // and flags it.
  lemma {:induction false} TurnLog(s: State, o: Outcome)
    requires InRing(s) && s.next !in s.held && s.next !in s.orphans
    ensures var t := TurnResult(s, o); Log(t) == Log(s) + Notices(t, s.next)
  {
    hide Selected, KeptResult, Commit, Committed, Fetch, Log;
    var id := s.next;
    var t := TurnResult(s, o);
    var back := s.(next := id + 1);
    FetchTouches(back, back);
    if o.Client? && o.nonblocking && s.free > 0 && Selected(s.recv) != -1 && Selected(s.send) != -1 && Fits(s) {
      var full := Fetch(back).(local := s.local + [Connect(id)]);
      QueuedLog(s, Connect(id));
      SameLog(s.(local := s.local + [Connect(id)]), full);
      CommitLog(full, o.space);
      CommitTouches(full, full, o.space);
      var sent := Commit(full, o.space);
      if Committed(full, o.space) {
        TakenLog(s, o, sent);
      } else {
        SameLog(sent, t);
      }
    } else {
      SameLog(s, t);
    }
  }

  lemma {:induction false} TakenLog(s: State, o: Outcome, sent: State)
    requires InRing(s) && Fits(s)
    requires o.Client? && o.nonblocking && s.free > 0 && Selected(s.recv) != -1 && Selected(s.send) != -1
    requires var full := Fetch(s.(next := s.next + 1)).(local := s.local + [Connect(s.next)]);
      sent == Commit(full, o.space) && Committed(full, o.space) && Log(sent) == Log(s) + [Connect(s.next)]
    ensures var t := TurnResult(s, o); Log(t) == Log(s) + Notices(t, s.next)
  {
    hide Selected, Commit, Committed, Fetch, KeptResult, Log;
    var r, d := Selected(s.recv), Selected(s.send);
    var full := Fetch(s.(next := s.next + 1)).(local := s.local + [Connect(s.next)]);
    FetchTouches(s.(next := s.next + 1), s);
    CommitReports(full, o.space);
    var taken := sent.(free := s.free - 1, recv := Up(s.recv, r), send := Up(s.send, d));
    SameLog(sent, taken);
    KeptLog(taken, s.next, r, d, o);
  }

  // The notice of the disconnect is queued exactly for the sessions flagged as
  // handed over, once, and directly behind the notice of the connection.
  ghost predicate Told(s: State, id: nat) {
    && multiset(Log(s))[Disconnect(id)] == Once(id in s.held && s.held[id].closing)
    && (id in s.held && s.held[id].closing ==> Behind(Log(s), id))
  }

  ghost predicate Behind(log: seq<Notice>, id: nat) {
    exists i | 0 <= i < |log| - 1 :: log[i] == Connect(id) && log[i + 1] == Disconnect(id)
  }

  lemma {:induction false} StaysBehind(log: seq<Notice>, more: seq<Notice>, id: nat)
    requires Behind(log, id)
    ensures Behind(log + more, id)
  {
    var i :| 0 <= i < |log| - 1 && log[i] == Connect(id) && log[i + 1] == Disconnect(id);
    assert (log + more)[i] == Connect(id) && (log + more)[i + 1] == Disconnect(id);
  }

  lemma {:induction false} JustBehind(log: seq<Notice>, id: nat)
    ensures Behind(log + [Connect(id), Disconnect(id)], id)
  {
    var l := log + [Connect(id), Disconnect(id)];
    assert l[|log|] == Connect(id) && l[|log| + 1] == Disconnect(id);
  }

  lemma {:induction false} NoticesCount(log: seq<Notice>, t: State, n: nat, id: nat)
    ensures multiset(log + Notices(t, n))[Disconnect(id)]
      == multiset(log)[Disconnect(id)] + Once(id == n && n in t.held && t.held[n].closing)
  {
    assert multiset(log + Notices(t, n)) == multiset(log) + multiset(Notices(t, n));
  }

  lemma {:induction false} TurnTold(s: State, o: Outcome, id: nat)
    requires InRing(s) && s.next !in s.held && s.next !in s.orphans && Told(s, id)
    ensures Told(TurnResult(s, o), id)
  {
    hide TurnResult, Log, Behind, Notices;
    var t := TurnResult(s, o);
    TurnLog(s, o);
    TurnTakes(s, o);
    NoticesCount(Log(s), t, s.next, id);
    if id in t.held && t.held[id].closing {
      if id in s.held {
        StaysBehind(Log(s), Notices(t, s.next), id);
      } else {
        assert Notices(t, id) == [Connect(id), Disconnect(id)] by { BothNotices(t, id); }
        JustBehind(Log(s), id);
      }
    }
  }

  lemma {:induction false} BothNotices(t: State, id: nat)
    requires id in t.held && t.held[id].closing
    ensures Notices(t, id) == [Connect(id), Disconnect(id)]
  {
  }

  lemma {:induction false} RunTells(s: State, script: seq<Outcome>, id: nat, sessions: nat)
    requires Inv(s, sessions) && Told(s, id)
    ensures Told(ThreadRun(s, script), id)
    decreases |script|
  {
    hide Inv, AcceptNext, TurnResult, Told, InRing;
    if Goes(script) {
      InvFresh(s, sessions);
      RollbackIsExact(s, script[0]);
      TurnTold(s, script[0], id);
      TurnKeeps(s, script[0], sessions);
      RunTells(AcceptNext(s, script[0]), script[1..], id, sessions);
    }
  }

  lemma {:induction false} InvFresh(s: State, sessions: nat)
    requires Inv(s, sessions)
    ensures InRing(s) && s.next !in s.held && s.next !in s.orphans
  {
    assert Settled(s, s.next) && Announced(s, s.next);
  }

  // Over every run and for every session: its disconnect is told to the main
  // thread exactly once when it was taken and flagged as handed over, else never,
  // and then directly behind its connection.
  lemma {:induction false} DisconnectsTold(sessions: nat, packets: nat, recv: nat, send: nat, epoll: nat,
                                           script: seq<Outcome>, id: nat)
    ensures var t := ThreadRun(Started(sessions, packets, recv, send, epoll), script);
      && multiset(t.local)[Disconnect(id)] + multiset(t.queue)[Disconnect(id)] == Once(id in t.held && t.held[id].closing)
      && (id in t.held && t.held[id].closing ==> Behind(t.queue + t.local, id))
  {
    hide ThreadRun, Inv, Behind;
    var s := Started(sessions, packets, recv, send, epoll);
    StartKept(sessions, packets, recv, send, epoll);
    assert Told(s, id);
    RunTells(s, script, id, sessions);
    var t := ThreadRun(s, script);
    assert multiset(t.queue + t.local) == multiset(t.queue) + multiset(t.local);
  }

  // ---- When a session is taken ---------------------------------------------------------------

  // Everything that must go well before the notice is out.
  predicate GoesOut(s: State, o: Outcome) {
    && o.Client? && o.nonblocking && s.free > 0
    && Selected(s.recv) != -1 && Selected(s.send) != -1
    && Fits(s) && Copy(s.at, |s.local| + 1, o.space).1
  }

  lemma {:induction false} KeptHolds(s: State, n: nat, r: int, d: int, o: Outcome)
    requires o.Client?
    ensures var t := KeptResult(s, n, r, d, o); n in t.held
    ensures var p := KeptResult(s, n, r, d, o).held[n]; var e := Selected(s.epoll);
      p == Session(r, d, e, e != -1 && o.registered, e == -1 || !o.registered)
  {
    hide Selected, Copy;
  }

  // A session is taken exactly then, by the least loaded threads, and it is
  // flagged as handed over exactly when no epoll thread reads it.
  lemma {:induction false} TakenExactly(s: State, o: Outcome)
    requires s.next !in s.held
    ensures var t := AcceptNext(s, o);
      && (s.next in t.held <==> GoesOut(s, o))
      && (s.next in t.held ==>
        var e := Selected(s.epoll);
        t.held[s.next]
          == Session(Selected(s.recv), Selected(s.send), e, e != -1 && o.registered, e == -1 || !o.registered))
  {
    hide Selected, KeptResult, Fetch, Copy, AcceptNext;
    RollbackIsExact(s, o);
    var id := s.next;
    var r, d := Selected(s.recv), Selected(s.send);
    var back := s.(next := id + 1);
    FetchTouches(back, back);
    if o.Client? && o.nonblocking && s.free > 0 && r != -1 && d != -1 && Fits(s) {
      var full := Fetch(back).(local := s.local + [Connect(id)]);
      CommitTouches(full, full, o.space);
      var sent := Commit(full, o.space);
      hide Commit;
      KeptHolds(sent.(free := s.free - 1, recv := Up(s.recv, r), send := Up(s.send, d)), id, r, d, o);
    }
  }

  // A packet is allocated only when the pool is empty: over every run, some left
  // in the pool means none was allocated.
  lemma {:induction false} PoolFirst(sessions: nat, packets: nat, recv: nat, send: nat, epoll: nat, script: seq<Outcome>)
    ensures var t := ThreadRun(Started(sessions, packets, recv, send, epoll), script); t.idle > 0 ==> t.made == 0
  {
    hide ThreadRun;
    StartKept(sessions, packets, recv, send, epoll);
    RunPoolFirst(Started(sessions, packets, recv, send, epoll), script, sessions);
  }

  lemma {:induction false} RunPoolFirst(s: State, script: seq<Outcome>, sessions: nat)
    requires Inv(s, sessions) && (s.idle > 0 ==> s.made == 0)
    ensures var t := ThreadRun(s, script); t.idle > 0 ==> t.made == 0
    decreases |script|
  {
    hide Inv, AcceptNext, TurnResult;
    if Goes(script) {
      InvFresh(s, sessions);
      RollbackIsExact(s, script[0]);
      TurnFetches(s, script[0]);
      TurnKeeps(s, script[0], sessions);
      RunPoolFirst(AcceptNext(s, script[0]), script[1..], sessions);
    }
  }

  lemma {:induction false} TurnFetches(s: State, o: Outcome)
    ensures var t := TurnResult(s, o);
      (t.idle, t.made) == (s.idle, s.made) || (t.idle, t.made) == (Fetch(s).idle, Fetch(s).made)
  {
    hide Selected, Copy, Fetch;
    var back := s.(next := s.next + 1);
    FetchTouches(back, s);
  }
}
