// Two connectors joined by a byte stream, and what holds over every
// interleaving of submitting, sending, receiving and consuming.
module Delivery {
  import opened Framing
  import opened Chunking
  import opened Connector
  import opened Streams

  // The capacities of the two rings and the largest class of the receiver's
  // packet pool.
  datatype Caps = Caps(send: nat, recv: nat, largest: nat)

  // `tx` and `rx` are the two connectors and `wire` the bytes under way. The
  // other fields are history: payloads accepted for sending, payloads popped
  // after `send` answered, all bytes written, short writes, packets produced by
  // the parser, packets consumed.
  datatype Link = Link(
    tx: ConnState,
    rx: ConnState,
    wire: seq<byte>,
    accepted: seq<Payload>,
    sent: seq<Payload>,
    written: seq<byte>,
    short: nat,
    parsed: seq<Packet>,
    taken: seq<Packet>)

  datatype Step =
    | Submit(p: Payload)
    | Transmit(script: seq<WriteOutcome>)
    | Writable
    | Deliver(n: nat, allocs: nat)
    | RecvAgain
    | Take

  function Start(): Link {
    var idle := ConnState(true, true, [], [], []);
    Link(idle, idle, [], [], [], [], 0, [], [])
  }

  predicate Legal(l: Link, step: Step) {
    match step
    case Transmit(script) => l.tx.up && |script| >= SEND_BATCH
    case Deliver(n, _) => l.rx.up && 0 < n <= |l.wire| && n <= RECV_BUFFER_LEN - |l.rx.retained|
    case _ => true
  }

  // How many of the writes took less than the whole packet.
  function ShortWrites(s: ConnState, script: seq<WriteOutcome>, budget: nat): nat
    requires |script| >= budget
    decreases budget
  {
    if budget == 0 || s.outbox == [] || !script[0].Wrote? then 0
    else
      (if script[0].n < |s.outbox[0]| + HEADER then 1 else 0)
      + ShortWrites(s.(outbox := s.outbox[1..]), script[1..], budget - 1)
  }

  function Next(caps: Caps, l: Link, step: Step): Link
    requires Legal(l, step)
  {
    match step
    case Submit(p) =>
      if |l.tx.outbox| < caps.send
      then l.(tx := l.tx.(outbox := l.tx.outbox + [p]), accepted := l.accepted + [p])
      else l
    case Transmit(script) =>
      var (tx, bytes) := SendDataNext(l.tx, script);
      PumpPops(l.tx, script, SEND_BATCH);
      var popped := |l.tx.outbox| - |tx.outbox|;
      l.(tx := tx, wire := l.wire + bytes, written := l.written + bytes,
         sent := l.sent + l.tx.outbox[..popped],
         short := l.short + if l.tx.sendable then ShortWrites(l.tx, script, SEND_BATCH) else 0)
    case Writable => l.(tx := l.tx.(sendable := true))
    case Deliver(n, allocs) =>
      var pool := Pool(caps.largest, allocs);
      l.(rx := OnRecvNext(l.rx, caps.recv, Received(l.wire[..n]), pool),
         wire := l.wire[n..],
         parsed := l.parsed + Parse(l.rx.retained + l.wire[..n], pool).packets)
    case RecvAgain => l.(rx := OnRecvNext(l.rx, caps.recv, RecvFailed(true), Pool(caps.largest, 0)))
    case Take =>
      if l.rx.inbox == [] then l
      else l.(rx := l.rx.(inbox := l.rx.inbox[1..]), taken := l.taken + [l.rx.inbox[0]])
  }

  ghost predicate LegalRun(caps: Caps, l: Link, steps: seq<Step>)
    decreases |steps|
  {
    steps == [] || (Legal(l, steps[0]) && LegalRun(caps, Next(caps, l, steps[0]), steps[1..]))
  }

  ghost function Run(caps: Caps, l: Link, steps: seq<Step>): Link
    requires LegalRun(caps, l, steps)
    decreases |steps|
  {
    if steps == [] then l else Run(caps, Next(caps, l, steps[0]), steps[1..])
  }

  // ---- The sending side -------------------------------------------------------

  lemma {:induction false} PumpPops(s: ConnState, script: seq<WriteOutcome>, budget: nat)
    requires |script| >= budget
    ensures var r := Pump(s, script, budget).0;
      && |r.outbox| <= |s.outbox|
      && r.outbox == s.outbox[|s.outbox| - |r.outbox|..]
    decreases budget
  {
    hide Pump;
    if budget == 0 || s.outbox == [] {
      PumpStops(s, script, budget);
    } else {
      PumpSends(s, script, budget);
      if script[0].Wrote? {
        var t := s.(outbox := s.outbox[1..]);
        PumpPops(t, script[1..], budget - 1);
        var m := |Pump(t, script[1..], budget - 1).0.outbox|;
        assert s.outbox[1..][|s.outbox| - 1 - m..] == s.outbox[|s.outbox| - m..];
      }
    }
  }

  // `bytes` encodes the packets popped when no write was short, and is too
  // short for them otherwise.
  predicate WritesAs(bytes: seq<byte>, short: nat, popped: seq<Payload>) {
    && (short == 0 ==> bytes == EncodeAll(popped))
    && (short > 0 ==> |bytes| < |EncodeAll(popped)|)
  }

  lemma {:induction false} WritesOne(p: Payload, n: nat, bytes: seq<byte>, short: nat, popped: seq<Payload>)
    requires WritesAs(bytes, short, popped)
    ensures WritesAs(Taken(p, n) + bytes, (if n < |p| + HEADER then 1 else 0) + short, [p] + popped)
  {
    EncodeAllCons([p] + popped);
    assert ([p] + popped)[1..] == popped;
  }

  lemma {:induction false} WritesNone()
    ensures WritesAs([], 0, [])
  {
  }

  lemma {:induction false} ShortStep(s: ConnState, script: seq<WriteOutcome>, budget: nat)
    requires |script| >= budget
    ensures budget == 0 || s.outbox == [] || !script[0].Wrote? ==> ShortWrites(s, script, budget) == 0
    ensures budget != 0 && s.outbox != [] && script[0].Wrote? ==>
      ShortWrites(s, script, budget)
      == (if script[0].n < |s.outbox[0]| + HEADER then 1 else 0)
         + ShortWrites(s.(outbox := s.outbox[1..]), script[1..], budget - 1)
  {
  }

  // The bytes on the wire encode the popped packets exactly when no write was
  // short; a short write always leaves too few.
  lemma {:induction false} PumpWrites(s: ConnState, script: seq<WriteOutcome>, budget: nat)
    requires |script| >= budget
    ensures var (r, bytes) := Pump(s, script, budget); var k := |s.outbox| - |r.outbox|;
      0 <= k <= |s.outbox| && WritesAs(bytes, ShortWrites(s, script, budget), s.outbox[..k])
    decreases budget
  {
    hide Pump, ShortWrites, WritesAs, Taken;
    ShortStep(s, script, budget);
    WritesNone();
    assert s.outbox[..0] == [];
    if budget == 0 || s.outbox == [] {
      PumpStops(s, script, budget);
    } else {
      PumpSends(s, script, budget);
      if script[0].Wrote? {
        var t := s.(outbox := s.outbox[1..]);
        PumpWrites(t, script[1..], budget - 1);
        var (r, bytes) := Pump(t, script[1..], budget - 1);
        var k := |s.outbox| - |r.outbox|;
        WritesOne(s.outbox[0], script[0].n, bytes, ShortWrites(t, script[1..], budget - 1), t.outbox[..k - 1]);
        assert s.outbox[..k] == [s.outbox[0]] + t.outbox[..k - 1];
      }
    }
  }

  // ---- The receiving side -------------------------------------------------------

  // The ring takes what it has room for.
  lemma {:induction false} OfferGrows(q: seq<Packet>, cap: nat, ps: seq<Packet>)
    requires |q| <= cap
    ensures var r := Offer(q, cap, ps);
      && |r| == (if |q| + |ps| <= cap then |q| + |ps| else cap)
      && (|q| + |ps| <= cap ==> r == q + ps)
    decreases |ps|
  {
    if ps != [] {
      var q' := if |q| < cap then q + [ps[0]] else q;
      OfferGrows(q', cap, ps[1..]);
      if |q| < cap {
        assert q + ps == q' + ps[1..];
      }
    }
  }

  // `at` says where in `ys` each of `xs` is: in order, and each once.
  ghost predicate Embeds(at: seq<nat>, xs: seq<Packet>, ys: seq<Packet>) {
    && |at| == |xs|
    && (forall i :: 0 <= i < |at| ==> at[i] < |ys| && xs[i] == ys[at[i]])
    && (forall i, j :: 0 <= i < j < |at| ==> at[i] < at[j])
  }

  ghost predicate Subsequence(xs: seq<Packet>, ys: seq<Packet>) {
    exists at :: Embeds(at, xs, ys)
  }

  lemma {:induction false} EmbedsMore(at: seq<nat>, xs: seq<Packet>, ys: seq<Packet>, y: Packet)
    requires Embeds(at, xs, ys)
    ensures Embeds(at, xs, ys + [y])
    ensures Embeds(at + [|ys|], xs + [y], ys + [y])
  {
  }

  lemma {:induction false} KeepsOrSkips(xs: seq<Packet>, ys: seq<Packet>, y: Packet)
    requires Subsequence(xs, ys)
    ensures Subsequence(xs, ys + [y]) && Subsequence(xs + [y], ys + [y])
  {
    var at :| Embeds(at, xs, ys);
    EmbedsMore(at, xs, ys, y);
  }

  lemma {:induction false} Longer(xs: seq<Packet>, ys: seq<Packet>, zs: seq<Packet>)
    requires Subsequence(xs, ys) && ys <= zs
    ensures Subsequence(xs, zs)
  {
    var at :| Embeds(at, xs, ys);
    assert Embeds(at, xs, zs);
  }

  // Whatever the ring refuses, what was consumed or queued stays in order.
  lemma {:induction false} OfferSkips(before: seq<Packet>, q: seq<Packet>, cap: nat, parsed: seq<Packet>, ps: seq<Packet>)
    requires Subsequence(before + q, parsed)
    ensures Subsequence(before + Offer(q, cap, ps), parsed + ps)
    decreases |ps|
  {
    hide Subsequence;
    if ps == [] {
      assert parsed + ps == parsed;
    } else {
      var q' := if |q| < cap then q + [ps[0]] else q;
      KeepsOrSkips(before + q, parsed, ps[0]);
      assert before + (q + [ps[0]]) == (before + q) + [ps[0]];
      OfferSkips(before, q', cap, parsed + [ps[0]], ps[1..]);
      assert parsed + [ps[0]] + ps[1..] == parsed + ps;
    }
  }

  // ---- The invariant ------------------------------------------------------------

  // What was written encodes what was sent, unless some write was short.
  ghost predicate WireFaithful(l: Link) {
    && l.accepted == l.sent + l.tx.outbox
    && (l.short == 0 ==> l.written == EncodeAll(l.sent))
    && (l.short > 0 ==> |l.written| < |EncodeAll(l.sent)|)
  }

  // What was consumed or queued is part of what the parser produced, in order,
  // and all of it when nothing is missing.
  ghost predicate QueueAccounts(caps: Caps, l: Link) {
    && |l.rx.inbox| <= caps.recv
    && |l.taken| + |l.rx.inbox| <= |l.parsed|
    && (|l.taken| + |l.rx.inbox| == |l.parsed| ==> l.taken + l.rx.inbox == l.parsed)
    && Subsequence(l.taken + l.rx.inbox, l.parsed)
  }

  // The packets produced are the first ones sent, and the bytes retained and
  // under way encode exactly the others.
  ghost predicate InStep(l: Link) {
    var k := |l.parsed|;
    && k <= |l.sent|
    && l.parsed == Clean(l.sent[..k])
    && (l.rx.up ==> l.rx.retained + l.wire == EncodeAll(l.sent[k..]) && Waiting(l.rx.retained))
  }

  ghost predicate Inv(caps: Caps, l: Link) {
    WireFaithful(l) && QueueAccounts(caps, l) && (l.short == 0 ==> InStep(l))
  }

  lemma {:induction false} TransmitKeeps(caps: Caps, l: Link, script: seq<WriteOutcome>)
    requires Inv(caps, l) && Legal(l, Transmit(script))
    ensures Inv(caps, Next(caps, l, Transmit(script)))
  {
    hide EncodeAll, Clean, Pump, ShortWrites, Waiting;
    var l' := Next(caps, l, Transmit(script));
    if l.tx.sendable {
      PumpWrites(l.tx, script, SEND_BATCH);
      PumpPops(l.tx, script, SEND_BATCH);
      var popped := l'.sent[|l.sent|..];
      assert l'.sent == l.sent + popped && l.tx.outbox == popped + l'.tx.outbox;
      EncodeAllConcat(l.sent, popped);
      if l'.short == 0 {
        var k := |l.parsed|;
        assert l'.sent[k..] == l.sent[k..] + popped && l'.sent[..k] == l.sent[..k];
        EncodeAllConcat(l.sent[k..], popped);
        assert l.rx.retained + l'.wire == (l.rx.retained + l.wire) + EncodeAll(popped);
      }
    } else {
      assert l.sent + [] == l.sent && l.wire + [] == l.wire && l.written + [] == l.written;
      assert l.tx.outbox[..0] == [];
    }
  }

  lemma {:induction false} DeliverQueues(caps: Caps, l: Link, n: nat, allocs: nat)
    requires QueueAccounts(caps, l) && Legal(l, Deliver(n, allocs))
    ensures QueueAccounts(caps, Next(caps, l, Deliver(n, allocs)))
  {
    hide Offer, Parse, Subsequence;
    var ps := Parse(l.rx.retained + l.wire[..n], Pool(caps.largest, allocs)).packets;
    OfferGrows(l.rx.inbox, caps.recv, ps);
    OfferSkips(l.taken, l.rx.inbox, caps.recv, l.parsed, ps);
    assert l.taken + (l.rx.inbox + ps) == (l.taken + l.rx.inbox) + ps;
  }

  lemma {:induction false} DeliverInStep(caps: Caps, l: Link, n: nat, allocs: nat)
    requires InStep(l) && Legal(l, Deliver(n, allocs))
    ensures InStep(Next(caps, l, Deliver(n, allocs)))
  {
    hide Offer, Parse, EncodeAll, Clean, Waiting;
    var pool := Pool(caps.largest, allocs);
    var k := |l.parsed|;
    var data, ahead := l.rx.retained + l.wire[..n], l.sent[k..];
    assert l.rx.retained + l.wire == data + l.wire[n..];
    ParseEncoded(data, ahead, pool);
    var r := Parse(data, pool);
    var j := |r.packets|;
    CleanSplits(l.sent, k, j);
    if r.Parsed? {
      assert data[r.used..] + l.wire[n..] == (data + l.wire[n..])[r.used..];
    }
  }

  lemma {:induction false} StepKeeps(caps: Caps, l: Link, step: Step)
    requires Inv(caps, l) && Legal(l, step)
    ensures Inv(caps, Next(caps, l, step))
  {
    match step
    case Submit(p) =>
      assert l.sent + (l.tx.outbox + [p]) == (l.sent + l.tx.outbox) + [p];
    case Transmit(script) =>
      TransmitKeeps(caps, l, script);
    case Writable =>
    case Deliver(n, allocs) =>
      DeliverQueues(caps, l, n, allocs);
      if l.short == 0 {
        DeliverInStep(caps, l, n, allocs);
      }
    case RecvAgain =>
    case Take =>
      if l.rx.inbox != [] {
        var l' := Next(caps, l, Take);
        assert l'.taken + l'.rx.inbox == l.taken + l.rx.inbox;
      }
  }

  lemma {:induction false} RunKeeps(caps: Caps, l: Link, steps: seq<Step>)
    requires Inv(caps, l) && LegalRun(caps, l, steps)
    ensures Inv(caps, Run(caps, l, steps))
    decreases |steps|
  {
    if steps != [] {
      StepKeeps(caps, l, steps[0]);
      RunKeeps(caps, Next(caps, l, steps[0]), steps[1..]);
    }
  }

  // ---- End-to-end delivery --------------------------------------------------------

  // The ring has room for every packet the call produces.
  predicate Room(caps: Caps, l: Link, step: Step)
    requires Legal(l, step)
  {
    match step
    case Deliver(n, allocs) =>
      var ps := Parse(l.rx.retained + l.wire[..n], Pool(caps.largest, allocs)).packets;
      |l.rx.inbox| + |ps| <= caps.recv
    case _ => true
  }

  ghost predicate RoomAlways(caps: Caps, l: Link, steps: seq<Step>)
    requires LegalRun(caps, l, steps)
    decreases |steps|
  {
    steps == [] || (Room(caps, l, steps[0]) && RoomAlways(caps, Next(caps, l, steps[0]), steps[1..]))
  }

  // How many packets were produced and are neither queued nor consumed.
  function Missing(l: Link): int {
    |l.parsed| - |l.taken| - |l.rx.inbox|
  }

  lemma {:induction false} StepMisses(caps: Caps, l: Link, step: Step)
    requires QueueAccounts(caps, l) && Legal(l, step)
    ensures Missing(Next(caps, l, step)) >= Missing(l)
    ensures Missing(Next(caps, l, step)) == Missing(l) <==> Room(caps, l, step)
  {
    hide Parse, Offer, Subsequence;
    if step.Deliver? {
      var ps := Parse(l.rx.retained + l.wire[..step.n], Pool(caps.largest, step.allocs)).packets;
      OfferGrows(l.rx.inbox, caps.recv, ps);
    } else if step.Transmit? {
      TransmitIsSenders(caps, l, step.script);
    }
  }

  lemma {:induction false} TransmitIsSenders(caps: Caps, l: Link, script: seq<WriteOutcome>)
    requires Legal(l, Transmit(script))
    ensures var l' := Next(caps, l, Transmit(script)); l'.rx == l.rx && l'.parsed == l.parsed && l'.taken == l.taken
  {
  }

  lemma {:induction false} RunMisses(caps: Caps, l: Link, steps: seq<Step>)
    requires Inv(caps, l) && LegalRun(caps, l, steps)
    ensures Missing(Run(caps, l, steps)) >= Missing(l)
    ensures Missing(Run(caps, l, steps)) == Missing(l) <==> RoomAlways(caps, l, steps)
    decreases |steps|
  {
    hide Next, Legal, Inv, Room, Missing;
    if steps != [] {
      InvQueues(caps, l);
      StepMisses(caps, l, steps[0]);
      StepKeeps(caps, l, steps[0]);
      RunMisses(caps, Next(caps, l, steps[0]), steps[1..]);
    }
  }

  lemma {:induction false} InvQueues(caps: Caps, l: Link)
    requires Inv(caps, l)
    ensures QueueAccounts(caps, l)
  {
  }

  lemma {:induction false} StartInv(caps: Caps)
    ensures Inv(caps, Start()) && Missing(Start()) == 0
  {
    var none: seq<Packet> := [];
    assert Embeds([], none + none, none);
    assert EncodeAll([]) == [] && Clean([]) == [];
  }

  lemma {:induction false} SentIsFirst(l: Link, k: nat)
    requires l.accepted == l.sent + l.tx.outbox && k <= |l.sent| && l.parsed == Clean(l.sent[..k])
    ensures l.parsed <= Clean(l.accepted)
  {
    CleanSplits(l.accepted, k, |l.accepted| - k);
    assert l.accepted[..k] == l.sent[..k];
  }

  // Over every run whose writes were all complete, the packets produced at the
  // receiver are the first ones accepted by the sender, and whatever its ring
  // refused, those consumed and queued are among them in order and each once.
  // Nothing is refused exactly when the ring had room at every call, and then
  // they are the first ones. The writes were complete exactly when what was
  // written encodes what was sent.
  lemma {:induction false} EndToEnd(caps: Caps, steps: seq<Step>)
    requires LegalRun(caps, Start(), steps)
    ensures var l := Run(caps, Start(), steps);
      && l.accepted == l.sent + l.tx.outbox
      && (l.short == 0 <==> l.written == EncodeAll(l.sent))
      && (l.short == 0 ==> l.parsed <= Clean(l.accepted) && Subsequence(l.taken + l.rx.inbox, Clean(l.accepted)))
      && (RoomAlways(caps, Start(), steps) <==> l.taken + l.rx.inbox == l.parsed)
      && (l.short == 0 && RoomAlways(caps, Start(), steps) ==> l.taken + l.rx.inbox <= Clean(l.accepted))
  {
    hide Next, Legal, LegalRun, Run, Start, RoomAlways, Subsequence, Clean, EncodeAll, Waiting;
    StartInv(caps);
    RunKeeps(caps, Start(), steps);
    RunMisses(caps, Start(), steps);
    var l := Run(caps, Start(), steps);
    if l.short == 0 {
      SentIsFirst(l, |l.parsed|);
      Longer(l.taken + l.rx.inbox, l.parsed, Clean(l.accepted));
    }
  }

  // Nothing stays behind: once the wire is empty and the connection still up,
  // every packet sent has been produced, except a final empty one.
  lemma {:induction false} AllArrive(caps: Caps, steps: seq<Step>)
    requires LegalRun(caps, Start(), steps)
    ensures var l := Run(caps, Start(), steps);
      l.short == 0 && l.rx.up && l.wire == [] ==>
        || (l.parsed == Clean(l.sent) && l.rx.retained == [])
        || (l.parsed + Clean([[]]) == Clean(l.sent) && l.rx.retained == LONE_EMPTY)
  {
    hide Next, Legal, LegalRun, Run, Start, Subsequence, Clean, EncodeAll, Waiting;
    StartInv(caps);
    RunKeeps(caps, Start(), steps);
    var l := Run(caps, Start(), steps);
    if l.short == 0 && l.rx.up && l.wire == [] {
      var k := |l.parsed|;
      assert l.rx.retained + [] == l.rx.retained;
      LastOnes(l.rx.retained, l.sent[k..]);
      assert l.sent == l.sent[..k] + l.sent[k..];
      assert l.sent[..k] + [] == l.sent[..k];
      CleanConcat(l.sent[..k], [[]]);
    }
  }

  // One call over frames that are always received leaves the connection up while
  // the pool has a packet for every byte.
  lemma {:induction false} DeliverKeepsUp(caps: Caps, l: Link, n: nat, allocs: nat)
    requires Inv(caps, l) && Legal(l, Deliver(n, allocs)) && l.short == 0
    requires Within(l.sent, Limit(caps.largest))
    requires allocs >= |l.rx.retained| + n
    ensures Next(caps, l, Deliver(n, allocs)).rx.up
  {
    hide Parse, WellFormed, EncodeAll, Decode, Offer, Clean, Waiting, Subsequence;
    var k := |l.parsed|;
    var data := l.rx.retained + l.wire[..n];
    assert data <= l.rx.retained + l.wire;
    EncodedWellFormed(data, l.sent[k..], Limit(caps.largest));
    ParseDecodes(data, Pool(caps.largest, allocs));
  }

  // Every call finds a packet for each byte it can hold.
  predicate Supplied(steps: seq<Step>) {
    forall i :: 0 <= i < |steps| && steps[i].Deliver? ==> steps[i].allocs >= RECV_BUFFER_LEN
  }

  lemma {:induction false} StepGrows(caps: Caps, l: Link, step: Step)
    requires Legal(l, step)
    ensures var l' := Next(caps, l, step); l.short <= l'.short && l.accepted <= l'.accepted
    ensures !step.Deliver? ==> Next(caps, l, step).rx.up == l.rx.up
  {
    hide Pump, ShortWrites, Parse;
  }

  lemma {:induction false} RunGrows(caps: Caps, l: Link, steps: seq<Step>)
    requires LegalRun(caps, l, steps)
    ensures var l' := Run(caps, l, steps); l.short <= l'.short && l.accepted <= l'.accepted
    decreases |steps|
  {
    hide Next, Legal;
    if steps != [] {
      StepGrows(caps, l, steps[0]);
      RunGrows(caps, Next(caps, l, steps[0]), steps[1..]);
    }
  }

  lemma {:induction false} StepStaysUp(caps: Caps, l: Link, step: Step, all: seq<Payload>)
    requires Inv(caps, l) && Legal(l, step) && l.rx.up && l.short == 0
    requires l.accepted <= all && Within(all, Limit(caps.largest))
    requires step.Deliver? ==> step.allocs >= RECV_BUFFER_LEN
    ensures Next(caps, l, step).rx.up
  {
    hide Next, Parse, Subsequence, Clean, EncodeAll;
    StepGrows(caps, l, step);
    if step.Deliver? {
      forall i | 0 <= i < |l.sent| ensures |l.sent[i]| + HEADER <= Limit(caps.largest) {
        assert l.sent[i] == all[i];
      }
      DeliverKeepsUp(caps, l, step.n, step.allocs);
    }
  }

  lemma {:induction false} RunStaysUp(caps: Caps, l: Link, steps: seq<Step>, all: seq<Payload>)
    requires Inv(caps, l) && LegalRun(caps, l, steps) && l.rx.up && Supplied(steps)
    requires Run(caps, l, steps).short == 0
    requires Run(caps, l, steps).accepted <= all && Within(all, Limit(caps.largest))
    ensures Run(caps, l, steps).rx.up
    decreases |steps|
  {
    hide Next, Legal, Inv;
    if steps != [] {
      RunGrows(caps, l, steps);
      StepStaysUp(caps, l, steps[0], all);
      StepKeeps(caps, l, steps[0]);
      RunStaysUp(caps, Next(caps, l, steps[0]), steps[1..], all);
    }
  }

  // Over every run, frames of at most 8192 bytes that fit the largest packet
  // class never break the connection while the pool has packets to give and no
  // write is short.
  lemma {:induction false} StaysUp(caps: Caps, steps: seq<Step>)
    requires LegalRun(caps, Start(), steps) && Supplied(steps)
    requires Run(caps, Start(), steps).short == 0
    requires Within(Run(caps, Start(), steps).accepted, Limit(caps.largest))
    ensures Run(caps, Start(), steps).rx.up
  {
    StartInv(caps);
    RunStaysUp(caps, Start(), steps, Run(caps, Start(), steps).accepted);
  }

  function Writes(n: nat, k: nat): (r: seq<WriteOutcome>)
    ensures |r| == n && forall i | 0 <= i < n :: r[i] == Wrote(k)
  {
    if n == 0 then [] else [Wrote(k)] + Writes(n - 1, k)
  }

  // `send` takes two of the first three bytes, and then whatever it is given.
  function ShortScript(): (r: seq<WriteOutcome>)
    ensures |r| == SEND_BATCH && r[0] == Wrote(2) && r[1] == Wrote(3)
  {
    [Wrote(2)] + Writes(SEND_BATCH - 1, 3)
  }

  lemma {:induction false} ShortTransmit(caps: Caps, l: Link, script: seq<WriteOutcome>)
    requires l.tx.up && l.tx.sendable && l.tx.outbox == [[1], [2]] && l.wire == []
    requires |script| == SEND_BATCH && script[0] == Wrote(2) && script[1] == Wrote(3)
    ensures Next(caps, l, Transmit(script)).wire == [3, 0, 3, 0, 2]
  {
    var last := l.tx.(outbox := []);
    var mid := l.tx.(outbox := [[2]]);
    assert l.tx.outbox[1..] == [[2]] && mid.outbox[1..] == [];
    assert Encode([1]) == [3, 0, 1] && Encode([2]) == [3, 0, 2];
    assert Taken([2], 3) == [3, 0, 2] && Taken([1], 2) == [3, 0];
    PumpStops(last, script[1..][1..], SEND_BATCH - 2);
    PumpSends(mid, script[1..], SEND_BATCH - 1);
    PumpSends(l.tx, script, SEND_BATCH);
    hide Pump, Encode, Taken;
    assert [3, 0, 2] + [] == [3, 0, 2] && [3, 0] + [3, 0, 2] == [3, 0, 3, 0, 2];
    assert Pump(mid, script[1..], SEND_BATCH - 1) == (last, [3, 0, 2]);
    assert Pump(l.tx, script, SEND_BATCH) == (last, [3, 0, 3, 0, 2]);
  }

  lemma {:induction false} ShortDeliver(caps: Caps, l: Link)
    requires l.rx.up && l.rx.retained == [] && l.wire == [3, 0, 3, 0, 2] && l.parsed == [] && caps.largest >= 3
    ensures Next(caps, l, Deliver(5, 9)).parsed == [Packet([3], false)]
  {
    var data := l.rx.retained + l.wire[..5];
    assert data == [3, 0, 3, 0, 2];
    DrainStops(data[3..], Pool(caps.largest, 8));
    DrainTakes(data, Pool(caps.largest, 9));
    assert PacketOf(data, 3) == Packet([3], false);
    assert Parse(data, Pool(caps.largest, 9)).packets == [Packet([3], false)];
  }

  // What a short write does: the second byte string is read as the missing
  // payload of the first packet, and neither packet submitted arrives.
  lemma {:induction false} ShortWriteMisreads(caps: Caps)
    requires caps.send >= 2 && caps.largest >= 3
    ensures var steps := [Submit([1]), Submit([2]), Transmit(ShortScript()), Deliver(5, 9)];
      && LegalRun(caps, Start(), steps)
      && Run(caps, Start(), steps).parsed == [Packet([3], false)]
  {
    hide Pump, Parse, Drain, Encode, Run, LegalRun, ShortWrites, ShortScript;
    var script := ShortScript();
    var l1 := Next(caps, Start(), Submit([1]));
    var l2 := Next(caps, l1, Submit([2]));
    assert l2.tx.outbox == [[1], [2]];
    ShortTransmit(caps, l2, script);
    var l3 := Next(caps, l2, Transmit(script));
    ShortDeliver(caps, l3);
    RunFour(caps, [Submit([1]), Submit([2]), Transmit(script), Deliver(5, 9)]);
  }

  lemma {:induction false} RunFour(caps: Caps, steps: seq<Step>)
    requires |steps| == 4
    requires Legal(Start(), steps[0])
    requires Legal(Next(caps, Start(), steps[0]), steps[1])
    requires Legal(Next(caps, Next(caps, Start(), steps[0]), steps[1]), steps[2])
    requires Legal(Next(caps, Next(caps, Next(caps, Start(), steps[0]), steps[1]), steps[2]), steps[3])
    ensures LegalRun(caps, Start(), steps)
    ensures Run(caps, Start(), steps)
         == Next(caps, Next(caps, Next(caps, Next(caps, Start(), steps[0]), steps[1]), steps[2]), steps[3])
  {
    hide Next, Legal;
    var l1 := Next(caps, Start(), steps[0]);
    var l2 := Next(caps, l1, steps[1]);
    var l3 := Next(caps, l2, steps[2]);
    var l4 := Next(caps, l3, steps[3]);
    var s1, s2, s3 := steps[1..], steps[2..], steps[3..];
    assert s1[1..] == s2 && s2[1..] == s3 && s3[1..] == [];
    assert LegalRun(caps, l3, s3) && Run(caps, l3, s3) == l4;
    assert LegalRun(caps, l2, s2) && Run(caps, l2, s2) == l4;
    assert LegalRun(caps, l1, s1) && Run(caps, l1, s1) == l4;
  }
}
