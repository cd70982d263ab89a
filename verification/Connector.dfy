// LConnector as an object: the receive buffer with its in-place parser and
// compaction, the queue of received packets and the peek-then-pop send queue.
// What the kernel answers is an input of every call. Each method is proved
// equal to a transition function on the abstract state.
module Connector {
  import opened Framing
  import opened Chunking

  const SEND_BATCH: nat := 50

  datatype ConnState = ConnState(
    up: bool,
    sendable: bool,
    retained: seq<byte>,
    inbox: seq<Packet>,
    outbox: seq<Payload>)

  datatype RecvOutcome = PeerClosed | RecvFailed(again: bool) | Received(chunk: seq<byte>)

  // What `send` answers: how many bytes it took, or why it took none.
  datatype WriteOutcome = Wrote(n: nat) | WouldBlock | WriteFailed

  // A ring that is full refuses the packet, and the parser ignores the refusal.
  function Offer(q: seq<Packet>, cap: nat, ps: seq<Packet>): seq<Packet>
    decreases |ps|
  {
    if ps == [] then q
    else Offer(if |q| < cap then q + [ps[0]] else q, cap, ps[1..])
  }

  function OnRecvNext(s: ConnState, cap: nat, o: RecvOutcome, pool: Pool): ConnState {
    match o
    case PeerClosed => s.(up := false)
    case RecvFailed(again) => if again then s else s.(up := false)
    case Received(chunk) =>
      var data := s.retained + chunk;
      match Parse(data, pool)
      case Broken(ps) => s.(up := false, retained := data, inbox := Offer(s.inbox, cap, ps))
      case Parsed(ps, used) => s.(retained := data[used..], inbox := Offer(s.inbox, cap, ps))
  }

  function Taken(p: Payload, n: nat): seq<byte> {
    if n < |p| + HEADER then Encode(p)[..n] else Encode(p)
  }

  // SendData: at most `budget` packets, each popped once `send` has answered.
  function Pump(s: ConnState, script: seq<WriteOutcome>, budget: nat): (r: (ConnState, seq<byte>))
    requires |script| >= budget
    decreases budget
  {
    if budget == 0 || s.outbox == [] then (s, [])
    else
      match script[0]
      case WouldBlock => (s.(sendable := false), [])
      case WriteFailed => (s.(up := false), [])
      case Wrote(n) =>
        var next := Pump(s.(outbox := s.outbox[1..]), script[1..], budget - 1);
        (next.0, Taken(s.outbox[0], n) + next.1)
  }

  function SendDataNext(s: ConnState, script: seq<WriteOutcome>): (ConnState, seq<byte>)
    requires |script| >= SEND_BATCH
  {
    if s.sendable then Pump(s, script, SEND_BATCH) else (s, [])
  }

  class LConnector {
    const buf: array<byte>
    var remained: nat
    var connected: bool
    var sendable: bool
    var recvQueue: seq<Packet>
    var sendQueue: seq<Payload>
    const recvCap: nat
    const sendCap: nat

    ghost predicate Valid()
      reads this
    {
      buf.Length == RECV_BUFFER_LEN && remained <= buf.Length
    }

    ghost function State(): ConnState
      reads this, buf
      requires Valid()
    {
      ConnState(connected, sendable, buf[..remained], recvQueue, sendQueue)
    }

    constructor (recvCap: nat, sendCap: nat)
      ensures Valid() && fresh(buf)
      ensures this.recvCap == recvCap && this.sendCap == sendCap
      ensures State() == ConnState(false, true, [], [], [])
    {
      buf := new byte[RECV_BUFFER_LEN];
      remained := 0;
      connected, sendable := false, true;
      recvQueue, sendQueue := [], [];
      this.recvCap, this.sendCap := recvCap, sendCap;
    }

    method AddOneRecvedPacket(p: Packet) returns (ok: bool)
      modifies this`recvQueue
      ensures ok == (|old(recvQueue)| < recvCap)
      ensures recvQueue == if ok then old(recvQueue) + [p] else old(recvQueue)
    {
      ok := |recvQueue| < recvCap;
      if ok {
        recvQueue := recvQueue + [p];
      }
    }

    method GetOneRecvedPacket() returns (p: seq<Packet>)
      modifies this`recvQueue
      ensures |p| <= 1 && p + recvQueue == old(recvQueue)
      ensures p == [] ==> old(recvQueue) == []
    {
      if recvQueue == [] {
        return [];
      }
      p := [recvQueue[0]];
      recvQueue := recvQueue[1..];
    }

    method AddOneSendPacket(p: Payload) returns (ok: bool)
      modifies this`sendQueue
      ensures ok == (|old(sendQueue)| < sendCap)
      ensures sendQueue == if ok then old(sendQueue) + [p] else old(sendQueue)
    {
      ok := |sendQueue| < sendCap;
      if ok {
        sendQueue := sendQueue + [p];
      }
    }

    // Parses the first `n` bytes of the buffer; -1 means the peer broke the
    // protocol or no packet could be allocated.
    method ParseRecvedData(n: nat, pool: Pool) returns (used: int)
      requires buf.Length == RECV_BUFFER_LEN && n <= buf.Length
      modifies this`recvQueue
      ensures var r := Parse(buf[..n], pool);
        && used == (if r.Parsed? then r.used else -1)
        && recvQueue == Offer(old(recvQueue), recvCap, r.packets)
    {
      hide Drain, Offer, Resumes, PacketOf;
      OfferNone(recvQueue, recvCap);
      if n <= HEADER {
        return 0;
      }
      ghost var data := buf[..n];
      var len := buf[0] as nat + 256 * (buf[1] as nat);
      if len > MAX_PACKET_LEN {
        return -1;
      }
      ghost var whole := Drain(data, pool);
      ghost var goal := Called(if whole.Parsed? then whole.used else -1, Offer(recvQueue, recvCap, whole.packets));
      assert data[0..] == data;
      ResumesAll(goal, whole, recvQueue, recvCap);
      var pos, left, more := 0, n, pool;
      used := 0;
      while left >= len
        invariant pos <= n && left == n - pos && used == pos && HEADER <= left
        invariant len == LengthField(data[pos..])
        invariant Resumes(goal, pos, Drain(data[pos..], more), recvQueue, recvCap)
        decreases more.left
      {
        if !more.Gives(len) {
          ResumeBreaks(goal, pos, data[pos..], more, recvQueue, recvCap);
          return -1;
        }
        ResumeTakes(goal, pos, data, more, recvQueue, recvCap);
        more := more.Less();
        var p := if len < HEADER then Packet([], true) else Packet(buf[pos + HEADER..pos + len], false);
        IsPacketOf(data, pos, p);
        pos, left, used := pos + len, left - len, used + len;
        var _ := AddOneRecvedPacket(p);
        if left >= HEADER {
          len := buf[pos] as nat + 256 * (buf[pos + 1] as nat);
        } else {
          break;
        }
      }
      ResumeEnds(goal, pos, data[pos..], more, recvQueue, recvCap);
    }

    // What the kernel writes behind the retained bytes.
    method Append(chunk: seq<byte>)
      requires Valid() && |chunk| <= RECV_BUFFER_LEN - remained
      modifies this`remained, buf
      ensures Valid() && buf[..remained] == old(buf[..remained]) + chunk
    {
      forall i | 0 <= i < |chunk| {
        buf[remained + i] := chunk[i];
      }
      remained := remained + |chunk|;
    }

    // Moves the bytes not yet consumed to the front of the buffer.
    method Compact(used: nat)
      requires Valid() && used <= remained
      modifies this`remained, buf
      ensures Valid() && buf[..remained] == old(buf[..remained])[used..]
    {
      remained := remained - used;
      forall i | 0 <= i < remained {
        buf[i] := buf[used + i];
      }
    }

    method OnRecv(o: RecvOutcome, pool: Pool) returns (r: int)
      requires Valid()
      requires o.Received? ==> 0 < |o.chunk| <= RECV_BUFFER_LEN - remained
      modifies this, buf
      ensures Valid()
      ensures State() == OnRecvNext(old(State()), recvCap, o, pool)
      ensures r == (if o == RecvFailed(true) || (o.Received? && Parse(old(State()).retained + o.chunk, pool).Parsed?) then 0 else -1)
      ensures connected <==> old(connected) && r == 0
      ensures sendable == old(sendable) && sendQueue == old(sendQueue)
      ensures !o.Received? ==> State() == old(State()).(up := connected)
    {
      hide Parse, Offer;
      match o
      case PeerClosed =>
        connected := false;
        r := -1;
      case RecvFailed(again) =>
        if again {
          return 0;
        }
        connected := false;
        r := -1;
      case Received(chunk) =>
        Append(chunk);
        ghost var data := old(State()).retained + chunk;
        var used := ParseRecvedData(remained, pool);
        if used < 0 {
          connected := false;
          return -1;
        }
        Compact(used);
        r := 0;
    }

    method OnSend()
      modifies this`sendable
      ensures sendable
    {
      if !sendable {
        sendable := true;
      }
    }

    // Sends from the queue. `script` answers the calls of `send` in turn and
    // `written` is what the kernel took.
    method SendData(script: seq<WriteOutcome>) returns (count: nat, written: seq<byte>)
      requires Valid() && |script| >= SEND_BATCH
      modifies this
      ensures Valid()
      ensures (State(), written) == SendDataNext(old(State()), script)
      ensures count == if !old(sendable) || (sendQueue != [] && |old(sendQueue)| - |sendQueue| < SEND_BATCH)
        then 1 else |old(sendQueue)| - |sendQueue|
    {
      hide Pump, Taken;
      count, written := 0, [];
      if !sendable {
        return 1, [];
      }
      ghost var goal := Pump(State(), script, SEND_BATCH);
      assert script[0..] == script && [] + goal.1 == goal.1;
      while true
        invariant Valid() && sendable && count <= SEND_BATCH
        invariant unchanged(buf) && remained == old(remained)
        invariant count == |old(sendQueue)| - |sendQueue|
        invariant PumpResumes(goal, written, Pump(State(), script[count..], SEND_BATCH - count))
        decreases SEND_BATCH - count
      {
        if count >= SEND_BATCH || sendQueue == [] {
          PumpStops(State(), script[count..], SEND_BATCH - count);
          assert written + [] == written;
          break;
        }
        ghost var here := State();
        PumpSends(here, script[count..], SEND_BATCH - count);
        assert script[count..][1..] == script[count + 1..];
        assert written + [] == written;
        var p := sendQueue[0];
        match script[count] {
          case WouldBlock =>
            sendable := false;
            return 1, written;
          case WriteFailed =>
            connected := false;
            return 1, written;
          case Wrote(n) =>
            ghost var more := Pump(here.(outbox := here.outbox[1..]), script[count + 1..], SEND_BATCH - count - 1);
            assert written + (Taken(p, n) + more.1) == (written + Taken(p, n)) + more.1;
            written := written + Taken(p, n);
        }
        sendQueue := sendQueue[1..];
        count := count + 1;
      }
    }
  }

  // `n` packets are sent and popped: the answers to the first n calls say that
  // bytes were taken, and the batch, the queue or the answers end there.
  ghost predicate SendsFirst(s: ConnState, script: seq<WriteOutcome>, budget: nat, n: nat) {
    && n <= budget && n <= |s.outbox| && n <= |script|
    && (forall i | 0 <= i < n :: script[i].Wrote?)
    && (n == budget || n == |s.outbox| || (n < |script| && !script[n].Wrote?))
  }

  // What the kernel has after the first `n` calls: of each packet the bytes it
  // took, from the front.
  ghost predicate Took(ps: seq<Payload>, script: seq<WriteOutcome>, n: nat, bytes: seq<byte>)
    requires n <= |ps| && n <= |script| && forall i | 0 <= i < n :: script[i].Wrote?
    decreases n
  {
    if n == 0 then bytes == []
    else
      var whole, k := Encode(ps[0]), script[0].n;
      var front := if k < |whole| then whole[..k] else whole;
      |front| <= |bytes| && bytes[..|front|] == front && Took(ps[1..], script[1..], n - 1, bytes[|front|..])
  }

  lemma {:induction false} SendsRest(s: ConnState, script: seq<WriteOutcome>, budget: nat, n: nat)
    requires SendsFirst(s, script, budget, n) && n > 0
    ensures SendsFirst(s.(outbox := s.outbox[1..]), script[1..], budget - 1, n - 1)
  {
    assert forall i | 0 <= i < n - 1 :: script[1..][i] == script[i + 1];
  }

  lemma {:induction false} TookOne(ps: seq<Payload>, script: seq<WriteOutcome>, n: nat, rest: seq<byte>)
    requires 0 < n <= |ps| && n <= |script| && forall i | 0 <= i < n :: script[i].Wrote?
    requires Took(ps[1..], script[1..], n - 1, rest)
    ensures Took(ps, script, n, Taken(ps[0], script[0].n) + rest)
  {
    hide Encode;
    var front := Taken(ps[0], script[0].n);
    assert (front + rest)[..|front|] == front && (front + rest)[|front|..] == rest;
  }

  // What a call that ends after `n` packets leaves behind.
  ghost predicate EndsAt(s: ConnState, script: seq<WriteOutcome>, budget: nat, n: nat, t: ConnState) {
    && n <= |s.outbox| && budget <= |script|
    && t.outbox == s.outbox[n..] && t.retained == s.retained && t.inbox == s.inbox
    && var stopped := n < budget && n < |s.outbox|;
    && (t.sendable <==> s.sendable && !(stopped && script[n].WouldBlock?))
    && (t.up <==> s.up && !(stopped && script[n].WriteFailed?))
  }

  lemma {:induction false} EndsLater(s: ConnState, script: seq<WriteOutcome>, budget: nat, n: nat, t: ConnState)
    requires s.outbox != [] && budget > 0 && n > 0 && script != []
    requires EndsAt(s.(outbox := s.outbox[1..]), script[1..], budget - 1, n - 1, t)
    ensures EndsAt(s, script, budget, n, t)
  {
    assert s.outbox[1..][n - 1..] == s.outbox[n..];
    assert n < budget && n < |s.outbox| ==> script[1..][n - 1] == script[n];
  }

  lemma {:induction false} EndsHere(s: ConnState, script: seq<WriteOutcome>, budget: nat, n: nat)
    requires |script| >= budget && SendsFirst(s, script, budget, n)
    requires budget == 0 || s.outbox == [] || !script[0].Wrote?
    ensures n == 0 && EndsAt(s, script, budget, 0, Pump(s, script, budget).0) && Pump(s, script, budget).1 == []
  {
    assert s.outbox[0..] == s.outbox;
  }

  // One call sends the longest such part of the queue, stops sending exactly when
  // the kernel would block, breaks the connection exactly when it fails, and
  // touches nothing else.
  lemma {:induction false} PumpExact(s: ConnState, script: seq<WriteOutcome>, budget: nat, n: nat)
    requires |script| >= budget && SendsFirst(s, script, budget, n)
    ensures var (t, bytes) := Pump(s, script, budget);
      EndsAt(s, script, budget, n, t) && Took(s.outbox, script, n, bytes)
    decreases budget
  {
    hide Pump, Taken, EndsAt;
    if budget == 0 || s.outbox == [] || !script[0].Wrote? {
      EndsHere(s, script, budget, n);
    } else {
      assert n > 0;
      var s' := s.(outbox := s.outbox[1..]);
      SendsRest(s, script, budget, n);
      PumpSends(s, script, budget);
      PumpExact(s', script[1..], budget - 1, n - 1);
      var rest := Pump(s', script[1..], budget - 1);
      EndsLater(s, script, budget, n, rest.0);
      hide Took;
      TookOne(s.outbox, script, n, rest.1);
    }
  }

  // So SendData sends a whole batch while the connection is sendable, and nothing
  // otherwise.
  lemma {:induction false} SendDataExact(s: ConnState, script: seq<WriteOutcome>, n: nat)
    requires |script| >= SEND_BATCH && SendsFirst(s, script, SEND_BATCH, n)
    ensures var (t, bytes) := SendDataNext(s, script);
      if s.sendable then EndsAt(s, script, SEND_BATCH, n, t) && Took(s.outbox, script, n, bytes)
      else t == s && bytes == []
  {
    hide Pump, EndsAt, Took;
    PumpExact(s, script, SEND_BATCH, n);
  }

  ghost predicate PumpResumes(goal: (ConnState, seq<byte>), written: seq<byte>, rest: (ConnState, seq<byte>)) {
    goal == (rest.0, written + rest.1)
  }

  lemma {:induction false} PumpStops(s: ConnState, script: seq<WriteOutcome>, budget: nat)
    requires |script| >= budget && (budget == 0 || s.outbox == [])
    ensures Pump(s, script, budget) == (s, [])
  {
  }

  lemma {:induction false} PumpSends(s: ConnState, script: seq<WriteOutcome>, budget: nat)
    requires |script| >= budget > 0 && s.outbox != []
    ensures Pump(s, script, budget) ==
      match script[0]
      case WouldBlock => (s.(sendable := false), [])
      case WriteFailed => (s.(up := false), [])
      case Wrote(n) =>
        var next := Pump(s.(outbox := s.outbox[1..]), script[1..], budget - 1);
        (next.0, Taken(s.outbox[0], n) + next.1)
  {
  }

  // What a call does to the queue, and what it returns.
  datatype Called = Called(returned: int, queue: seq<Packet>)

  // How the outcome of a whole call follows from what is left of the loop.
  ghost predicate Resumes(goal: Called, pos: nat, rest: Parsed, q: seq<Packet>, cap: nat) {
    && goal.returned == (if rest.Parsed? then pos + rest.used else -1)
    && goal.queue == Offer(q, cap, rest.packets)
  }

  lemma {:induction false} ResumesAll(goal: Called, r: Parsed, q: seq<Packet>, cap: nat)
    requires goal == Called(if r.Parsed? then r.used else -1, Offer(q, cap, r.packets))
    ensures Resumes(goal, 0, r, q, cap)
  {
  }

  lemma {:induction false} ResumeTakes(goal: Called, pos: nat, data: seq<byte>, pool: Pool, q: seq<Packet>, cap: nat)
    requires pos <= |data| && !Stuck(data[pos..]) && pool.Gives(LengthField(data[pos..]))
    requires Resumes(goal, pos, Drain(data[pos..], pool), q, cap)
    ensures var n := LengthField(data[pos..]); var p := PacketOf(data[pos..], n);
      Resumes(goal, pos + n, Drain(data[pos + n..], pool.Less()), if |q| < cap then q + [p] else q, cap)
  {
    hide Drain, Offer;
    var rest := data[pos..];
    var n := LengthField(rest);
    assert rest[n..] == data[pos + n..];
    DrainTakes(rest, pool);
    OfferOne(q, cap, PacketOf(rest, n), Drain(rest[n..], pool.Less()).packets);
  }

  lemma {:induction false} ResumeBreaks(goal: Called, pos: nat, rest: seq<byte>, pool: Pool, q: seq<Packet>, cap: nat)
    requires !Stuck(rest) && !pool.Gives(LengthField(rest))
    requires Resumes(goal, pos, Drain(rest, pool), q, cap)
    ensures goal == Called(-1, q)
  {
    DrainStarved(rest, pool);
    OfferNone(q, cap);
  }

  lemma {:induction false} ResumeEnds(goal: Called, pos: nat, rest: seq<byte>, pool: Pool, q: seq<Packet>, cap: nat)
    requires Stuck(rest) && Resumes(goal, pos, Drain(rest, pool), q, cap)
    ensures goal == Called(pos, q)
  {
    DrainStops(rest, pool);
    OfferNone(q, cap);
  }

  lemma {:induction false} IsPacketOf(data: seq<byte>, pos: nat, p: Packet)
    requires pos <= |data| && !Stuck(data[pos..])
    requires var n := LengthField(data[pos..]);
      p == if n < HEADER then Packet([], true) else Packet(data[pos + HEADER..pos + n], false)
    ensures p == PacketOf(data[pos..], LengthField(data[pos..]))
  {
    var n := LengthField(data[pos..]);
    if n >= HEADER {
      assert data[pos..][HEADER..n] == data[pos + HEADER..pos + n];
    }
  }

  lemma {:induction false} OfferNone(q: seq<Packet>, cap: nat)
    ensures Offer(q, cap, []) == q
  {
  }

  lemma {:induction false} OfferExtends(q: seq<Packet>, cap: nat, ps: seq<Packet>)
    ensures q <= Offer(q, cap, ps)
    decreases |ps|
  {
    if ps != [] {
      OfferExtends(if |q| < cap then q + [ps[0]] else q, cap, ps[1..]);
    }
  }

  lemma {:induction false} OfferOne(q: seq<Packet>, cap: nat, p: Packet, ps: seq<Packet>)
    ensures Offer(q, cap, [p] + ps) == Offer(if |q| < cap then q + [p] else q, cap, ps)
  {
    assert ([p] + ps)[1..] == ps;
  }

  // ---- Reconnecting -----------------------------------------------------------

  // ReConnect makes the connection usable again; the retained bytes stay.
  function Reopen(s: ConnState): ConnState {
    s.(up := true)
  }

  // One chunk received on each of a series of new connections.
  function OnNewConnections(s: ConnState, cap: nat, chunks: seq<seq<byte>>, pool: Pool): ConnState
    decreases |chunks|
  {
    if chunks == [] then s
    else OnNewConnections(OnRecvNext(Reopen(s), cap, Received(chunks[0]), pool), cap, chunks[1..], pool)
  }

  // The retained bytes start with a length the parser rejects.
  predicate Poisoned(s: ConnState) {
    |s.retained| > HEADER && LengthField(s.retained) > MAX_PACKET_LEN
  }

  // A frame rejected for its length is never dropped from the buffer, so it is
  // met again at the start of every later connection: each one breaks on its
  // first bytes and no packet is ever queued again.
  lemma {:induction false} RejectedFrameIsForever(s: ConnState, cap: nat, chunks: seq<seq<byte>>, pool: Pool)
    requires Poisoned(s)
    ensures var t := OnNewConnections(s, cap, chunks, pool);
      && Poisoned(t)
      && t.inbox == s.inbox
      && (chunks != [] ==> !t.up)
    decreases |chunks|
  {
    if chunks != [] {
      var t := OnRecvNext(Reopen(s), cap, Received(chunks[0]), pool);
      OfferNone(s.inbox, cap);
      RejectedFrameIsForever(t, cap, chunks[1..], pool);
    }
  }

  lemma {:induction false} RejectionPoisons(s: ConnState, cap: nat, chunk: seq<byte>, pool: Pool)
    requires |s.retained + chunk| > HEADER && LengthField(s.retained + chunk) > MAX_PACKET_LEN
    ensures var t := OnRecvNext(s, cap, Received(chunk), pool);
      Poisoned(t) && !t.up && t.inbox == s.inbox
  {
    OfferNone(s.inbox, cap);
  }

  lemma {:induction false} DrainRepeats(s: seq<byte>, pool: Pool, more: seq<byte>, later: Pool)
    requires |Drain(s, pool).packets| <= later.left && later.largest == pool.largest
    ensures Drain(s, pool).packets <= Drain(s + more, later).packets
    decreases pool.left
  {
    if !Stuck(s) && pool.Gives(LengthField(s)) {
      var n := LengthField(s);
      SameFirstFrame(s, more);
      DrainTakes(s, pool);
      DrainTakes(s + more, later);
      DrainRepeats(s[n..], pool.Less(), more, later.Less());
    }
  }

  // A call that runs out of packets, or meets a frame no packet is large enough
  // for, keeps the frames it has already queued, so a later connection queues
  // them all a second time.
  lemma {:induction false} StarvedCallReplays(s: ConnState, cap: nat, chunk: seq<byte>, pool: Pool, more: seq<byte>, later: Pool)
    requires later.largest == pool.largest
    requires var r := Parse(s.retained + chunk, pool); r.Broken? && |r.packets| <= later.left
    ensures var t := Reopen(OnRecvNext(s, cap, Received(chunk), pool));
      Parse(s.retained + chunk, pool).packets <= Parse(t.retained + more, later).packets
  {
    hide Drain, Offer;
    var data := s.retained + chunk;
    if LengthField(data) <= MAX_PACKET_LEN {
      DrainRepeats(data, pool, more, later);
      assert LengthField(data + more) == LengthField(data);
    }
  }

  // The bytes of an incomplete frame survive a reconnect too: the new stream is
  // read as the rest of that frame, wherever its own frames begin.
  lemma {:induction false} PartialFrameMisreads(s: ConnState, cap: nat, chunk: seq<byte>, pool: Pool)
    requires HEADER <= |s.retained| && Stuck(s.retained)
    requires LengthField(s.retained) <= Limit(pool.largest) && pool.left > 0
    requires |s.retained| + |chunk| >= LengthField(s.retained)
    ensures var n := LengthField(s.retained); var r := Parse(Reopen(s).retained + chunk, pool);
      && r.packets != []
      && r.packets[0] == Packet(s.retained[HEADER..] + chunk[..n - |s.retained|], false)
    ensures cap > |s.inbox| ==>
      var t := OnRecvNext(Reopen(s), cap, Received(chunk), pool);
      && |t.inbox| > |s.inbox|
      && t.inbox[..|s.inbox|] == s.inbox
      && t.inbox[|s.inbox|].payload == s.retained[HEADER..] + chunk[..LengthField(s.retained) - |s.retained|]
  {
    hide Drain, Offer;
    var n, data := LengthField(s.retained), s.retained + chunk;
    assert LengthField(data) == n;
    DrainTakes(data, pool);
    var r := Parse(data, pool);
    assert data[HEADER..n] == s.retained[HEADER..] + chunk[..n - |s.retained|];
    if cap > |s.inbox| {
      var p, more := r.packets[0], r.packets[1..];
      assert r.packets == [p] + more;
      OfferOne(s.inbox, cap, p, more);
      OfferExtends(s.inbox + [p], cap, more);
    }
  }

  // On a connection opened with `r` still in the buffer, every stream that is
  // received however it is cut is read as what it is.
  ghost predicate ReadsRight(r: seq<byte>, pool: Pool) {
    forall chunks ::
      WellFormed(Concat(chunks), Limit(pool.largest)) && |Concat(chunks)| <= pool.left ==>
        Agrees(Feed(r, chunks, pool), Decode(Concat(chunks)))
  }

  lemma {:induction false} FirstPacket(data: seq<byte>, pool: Pool)
    requires Parse(data, pool).packets != []
    ensures |data| > HEADER && !Stuck(data)
    ensures Parse(data, pool).packets[0] == PacketOf(data, LengthField(data))
  {
    hide Drain, PacketOf;
    if Stuck(data) {
      DrainStops(data, pool);
    } else if !pool.Gives(LengthField(data)) {
      DrainStarved(data, pool);
    } else {
      DrainTakes(data, pool);
    }
  }

  lemma {:induction false} OneByte(data: seq<byte>, x: byte)
    requires !Stuck(data) && PacketOf(data, LengthField(data)) == Packet([x], false)
    ensures LengthField(data) == 3 && data[2] == x
  {
    assert data[HEADER..LengthField(data)] == [x];
  }

  // Whatever is left in the buffer, a packet of one byte can be sent that is not
  // read as that packet.
  lemma {:induction false} Misreads(r: seq<byte>, pool: Pool) returns (x: byte)
    requires r != []
    ensures Parse(r + Encode([x]), pool).packets != [Packet([x], false)]
  {
    hide Parse;
    x := if |r| >= 3 && r[2] == 0 then 1 else 0;
    var data := r + Encode([x]);
    assert Encode([x]) == [3, 0, x];
    if Parse(data, pool).packets == [Packet([x], false)] {
      FirstPacket(data, pool);
      OneByte(data, x);
    }
  }

  lemma {:induction false} ReadsByte(x: byte, pool: Pool)
    requires pool.Gives(3)
    ensures Parse([] + Encode([x]), pool).packets == [Packet([x], false)]
  {
    var data: seq<byte> := [3, 0, x];
    assert Encode([x]) == data && [] + data == data && data[2..3] == [x] && data[3..] == [];
    DrainTakes(data, pool);
    DrainStops([], pool.Less());
  }

  lemma {:induction false} ByteDecodes(x: byte, limit: nat)
    requires limit >= 3
    ensures WellFormed(Encode([x]), limit) && Decode(Encode([x])) == Decoded([Packet([x], false)], [])
  {
    var data: seq<byte> := [3, 0, x];
    assert Encode([x]) == data && data[2..3] == [x] && data[3..] == [];
    DecodeStops([]);
  }

  lemma {:induction false} FeedOne(r: seq<byte>, s: seq<byte>, pool: Pool)
    ensures Concat([s]) == s
    ensures Feed(r, [s], pool).Fed? ==> Feed(r, [s], pool).packets == Parse(r + s, pool).packets
  {
    hide Parse;
    assert [s][1..] == [] && s + [] == s;
    var p := Parse(r + s, pool);
    if p.Parsed? {
      FeedStep(r, [s], pool);
      assert Feed((r + s)[p.used..], [], pool) == Fed([], (r + s)[p.used..]);
      assert p.packets + [] == p.packets;
    }
  }

  lemma {:induction false} AgreesOnByte(f: Fed, x: byte)
    ensures Agrees(f, Decoded([Packet([x], false)], [])) ==> f.Fed? && f.packets == [Packet([x], false)]
  {
    if f.Fed? {
      assert (f.packets + [Packet([], false)])[|f.packets|] == Packet([], false);
    }
  }

  // A new connection is read right exactly when nothing was left in the buffer:
  // for whole streams, however they are cut, and even for a single packet of one
  // byte. ReConnect does not empty the buffer.
  lemma {:induction false} ReconnectExact(s: ConnState, pool: Pool)
    requires pool.largest >= 3 && pool.left >= 3
    ensures ReadsRight(Reopen(s).retained, pool) <==> s.retained == []
    ensures (forall x: byte :: Parse(Reopen(s).retained + Encode([x]), pool).packets == [Packet([x], false)])
        <==> s.retained == []
  {
    hide Parse, Feed, Decode, WellFormed, Encode;
    var r := s.retained;
    if r == [] {
      forall chunks | WellFormed(Concat(chunks), Limit(pool.largest)) && |Concat(chunks)| <= pool.left
        ensures Agrees(Feed(r, chunks, pool), Decode(Concat(chunks)))
      {
        assert [] + Concat(chunks) == Concat(chunks);
        FeedDecodes([], chunks, pool);
      }
      forall x: byte
        ensures Parse(r + Encode([x]), pool).packets == [Packet([x], false)]
      {
        ReadsByte(x, pool);
      }
    } else {
      var x := Misreads(r, pool);
      ByteDecodes(x, Limit(pool.largest));
      FeedOne(r, Encode([x]), pool);
      var f := Feed(r, [Encode([x])], pool);
      AgreesOnByte(f, x);
      assert !Agrees(f, Decode(Concat([Encode([x])])));
    }
  }
}
