// Runs of the login protocol that go wrong. In the first two the key of a good
// verdict is refused at the gate: the login server's session is gone when the
// gate's answer is back, so that the master forgets the user and the gate does
// not, and the login server registers again and asks again. The second and the
// third, in which a user that logged in is removed at the master, need the timer
// call of the gate, which nothing in the program makes. All need a gate whose
// packets are large enough for the key (see the README).
module LoginFailures {
  import opened Decimals
  import opened ServerIds
  import opened Tallies
  import opened Registry
  import opened LoginKeys
  import opened LoginPackets
  import opened MasterUsers
  import opened MasterLogin
  import opened GateClients
  import opened Admission
  import G = GateRuns

  // ---- Stages ------------------------------------------------------------------------

  // The request, and the announcement reaching the gate.
  function Ask(l: nat, c: nat, u: nat, p: nat): seq<Step> {
    [Request(l, c, u, true), Deliver(0, p, Whole)]
  }

  // The registry after the login server filed under `id` lost its session `l`,
  // connected with session `l'`, and registered under the same identity.
  function Returned(reg: Reg, id: Id, l: nat, l': nat): Reg {
    var gone := DropSession(reg, l);
    AddServerNext(gone.(newUp := gone.newUp + {l'}), l', Unpack(id))
  }

  // The login server's session is gone when the gate's answer arrives; then the
  // login server comes back.
  function ComeBack(reg: Reg, id: Id, l: nat, l': nat): seq<Step> {
    [Reregister(DropSession(reg, l)), Deliver(0, l, Whole), Reregister(Returned(reg, id, l, l'))]
  }

  // A client connects to the gate and presents a key.
  function Attempt(p: nat, s: nat, u: nat, key: string): seq<Step> {
    [AtGate(p, G.NewClient(s, true)), AtGate(p, G.LoginKey(s, u, key))]
  }

  // Two seconds later the timer of the gate runs.
  function TimeOut(p: nat): seq<Step> {
    [AtGate(p, G.Tick(2)), AtGate(p, G.Timer)]
  }

  // The user is asked for twice while the gate still expects it.
  function AskedTwice(reg: Reg, id: Id, l: nat, l': nat, c: nat, u: nat, p: nat): seq<Step> {
    [StartGate(p)] + (Ask(l, c, u, p) + (ComeBack(reg, id, l, l') + (Ask(l', c, u, p) + [Deliver(0, l', Whole)])))
  }

  // Somebody uses the record up with a wrong key before the login server is gone.
  function UsedUp(reg: Reg, id: Id, l: nat, l': nat, c: nat, u: nat, p: nat, s: nat): seq<Step> {
    [StartGate(p)] + (Ask(l, c, u, p) + (Attempt(p, s, u, "x") + ComeBack(reg, id, l, l')))
  }

  // Four seconds later the user is asked for again.
  function AskedAfresh(reg: Reg, id: Id, l: nat, l': nat, c: nat, u: nat, p: nat, s: nat): seq<Step> {
    UsedUp(reg, id, l, l', c, u, p, s) + ([AtGate(p, G.Tick(4))] + (Ask(l', c, u, p) + [Deliver(0, l', Whole)]))
  }

  lemma {:induction false} RunConcat(w: World, a: seq<Step>, b: seq<Step>)
    ensures Run(w, a + b) == Run(Run(w, a), b)
    decreases |a|
  {
    hide Next;
    if a == [] {
      assert a + b == b;
    } else {
      assert (a + b)[1..] == a[1..] + b;
      RunConcat(Next(w, a[0]), a[1..], b);
    }
  }

  lemma {:induction false} RunOne(w: World, a: Step)
    ensures Run(w, [a]) == Next(w, a)
  {
    hide Next;
    assert [a][1..] == [];
  }

  lemma {:induction false} RunTwo(w: World, a: Step, b: Step)
    ensures Run(w, [a, b]) == Next(Next(w, a), b)
  {
    hide Next;
    assert [a, b][1..] == [b];
    RunOne(Next(w, a), b);
  }

  lemma {:induction false} RunThree(w: World, a: Step, b: Step, c: Step)
    ensures Run(w, [a, b, c]) == Next(Next(Next(w, a), b), c)
  {
    hide Next;
    assert [a, b, c][1..] == [b, c];
    RunTwo(Next(w, a), b, c);
  }

  // ---- What each stage does -------------------------------------------------------------

  // A login server and a gate are registered.
  ghost predicate Ready(reg: Reg, l: nat) {
    IsLogin(reg, l) && FirstGate(reg.servers.Keys).Some?
  }

  // The gate's process, the master's table, and the packets under way.
  ghost predicate At(w: World, reg: Reg, l: nat, p: nat, users: map<nat, nat>, g: Gate, clock: nat, asked: nat,
                     net: seq<Packet>)
  {
    && w.reg == reg && Ready(reg, l)
    && w.users == users && w.net == net
    && p in w.gates && w.gates[p].gate == g && w.gates[p].clock == clock
    && |w.asked| == asked
  }

  lemma {:induction false} Begins(reg: Reg, l: nat, p: nat)
    requires Ready(reg, l)
    ensures At(Run(Start(reg), [StartGate(p)]), reg, l, p, map[], Gate(map[], map[], map[], [], 0), 0, 0, [])
  {
    RunOne(Start(reg), StartGate(p));
  }

  function Announcement(reg: Reg, l: nat, c: nat, u: nat, asked: nat): Packet
    requires FirstGate(reg.servers.Keys).Some?
  {
    WillLogin(reg.servers[FirstGate(reg.servers.Keys).value], Ticket(l, c, asked), u)
  }

  lemma {:induction false} Asks(w: World, reg: Reg, l: nat, p: nat, g: Gate, clock: nat, asked: nat, c: nat, u: nat)
    requires At(w, reg, l, p, map[], g, clock, asked, []) && u != 0
    ensures At(Next(w, Request(l, c, u, true)), reg, l, p, map[u := WAITING_RESPONSE], g, clock, asked + 1,
      [Announcement(reg, l, c, u, asked)])
  {
    hide IsLogin, FirstGate, Plus;
  }

  lemma {:induction false} Announces(w: World, reg: Reg, l: nat, p: nat, users: map<nat, nat>, g: Gate, clock: nat,
                                     asked: nat, m: Packet)
    requires At(w, reg, l, p, users, g, clock, asked, [m]) && m.WillLogin?
    ensures var (g', reply) := WillLoginNext(g, m.ticket, m.user, clock);
      At(Next(w, Deliver(0, p, Whole)), reg, l, p, users, g', clock, asked, [reply])
  {
    hide Ready, Plus, WillLoginNext;
    assert Drop(w.net, 0) == [];
  }

  lemma {:induction false} AskStage(w: World, reg: Reg, l: nat, p: nat, g: Gate, clock: nat, asked: nat, c: nat, u: nat)
    requires At(w, reg, l, p, map[], g, clock, asked, []) && u != 0
    ensures var (g', reply) := WillLoginNext(g, Ticket(l, c, asked), u, clock);
      At(Run(w, Ask(l, c, u, p)), reg, l, p, map[u := WAITING_RESPONSE], g', clock, asked + 1, [reply])
  {
    hide Next, WillLoginNext, FirstGate, IsLogin;
    RunTwo(w, Request(l, c, u, true), Deliver(0, p, Whole));
    Asks(w, reg, l, p, g, clock, asked, c, u);
    Announces(Next(w, Request(l, c, u, true)), reg, l, p, map[u := WAITING_RESPONSE], g, clock, asked + 1,
      Announcement(reg, l, c, u, asked));
  }

  lemma {:induction false} LoginIsServer(reg: Reg, l: nat)
    requires IsLogin(reg, l)
    ensures HasServer(reg, l)
  {
  }

  // The login server filed under `id` has session `l`, and there is a gate.
  ghost predicate LoginAt(reg: Reg, id: Id, l: nat) {
    && reg.Sound() && id in reg.servers && reg.servers[id] == l && Kind(id) == LOGIN
    && FirstGate(reg.servers.Keys).Some?
  }

  lemma {:induction false} LoginAtReady(reg: Reg, id: Id, l: nat)
    requires LoginAt(reg, id, l)
    ensures Ready(reg, l)
  {
  }

  lemma {:induction false} ReturnedIs(reg: Reg, id: Id, l: nat, l': nat)
    requires LoginAt(reg, id, l) && l' !in reg.servers.Values
    ensures Returned(reg, id, l, l').servers == reg.servers[id := l']
    ensures !HasServer(DropSession(reg, l), l)
  {
    hide FirstGate, Unpack, Pack;
    PackUnpack(id);
    KindOf(id);
    DropSessionHit(reg, l, id);
    assert (reg.servers - {id})[id := l'] == reg.servers[id := l'];
  }

  lemma {:induction false} KindOf(id: Id)
    ensures Kind(id) == Unpack(id).kind
  {
  }

  // Nobody but the login server's session is different once it is back.
  lemma {:induction false} StillLogin(reg: Reg, id: Id, l: nat, l': nat)
    requires LoginAt(reg, id, l) && l' !in reg.servers.Values
    ensures LoginAt(Returned(reg, id, l, l'), id, l')
  {
    hide FirstGate, Unpack, Pack, Kind, Returned;
    ReturnedIs(reg, id, l, l');
    var reg' := Returned(reg, id, l, l');
    assert reg'.servers.Keys == reg.servers.Keys;
  }

  lemma {:induction false} ComeBackStage(w: World, reg: Reg, id: Id, l: nat, l': nat, p: nat, g: Gate, clock: nat,
                                         asked: nat, u: nat, m: Packet)
    requires At(w, reg, l, p, map[u := WAITING_RESPONSE], g, clock, asked, [m])
    requires m.WillLoginRes? && m.ticket.login == l && m.user == u
    requires LoginAt(reg, id, l) && l' !in reg.servers.Values
    ensures At(Run(w, ComeBack(reg, id, l, l')), Returned(reg, id, l, l'), l', p, map[], g, clock, asked, [])
  {
    hide Run, IsLogin, FirstGate, HasServer, DropSession, Returned, LoginAt, Ready, DeliverNext;
    var gone, back := DropSession(reg, l), Returned(reg, id, l, l');
    RunThree(w, Reregister(gone), Deliver(0, l, Whole), Reregister(back));
    ReturnedIs(reg, id, l, l');
    StillLogin(reg, id, l, l');
    LoginAtReady(back, id, l');
    assert map[u := WAITING_RESPONSE] - {u} == map[];
    LateAnswer(Next(w, Reregister(gone)), l, m);
  }

  // An answer whose login server has gone.
  lemma {:induction false} LateAnswer(w: World, l: nat, m: Packet)
    requires w.net == [m] && m.WillLoginRes? && m.ticket.login == l && !HasServer(w.reg, l)
    ensures var w' := Next(w, Deliver(0, l, Whole));
      && w'.reg == w.reg && w'.gates == w.gates && w'.asked == w.asked
      && w'.users == w.users - {m.user} && w'.net == []
  {
    hide Run, HasServer, Plus;
    assert Drop(w.net, 0) == [];
  }

  lemma {:induction false} AnswerStage(w: World, reg: Reg, l: nat, p: nat, g: Gate, clock: nat, asked: nat, m: Packet)
    requires m.WillLoginRes? && m.ticket.login == l && m.result == 0
    requires At(w, reg, l, p, map[m.user := WAITING_RESPONSE], g, clock, asked, [m])
    ensures At(Run(w, [Deliver(0, l, Whole)]), reg, l, p, map[m.user := WAITING_LOGIN], g, clock, asked,
      [Verify(0, m.ticket, m.user, m.key)])
  {
    RunOne(w, Deliver(0, l, Whole));
    LoginIsServer(reg, l);
    hide Run, IsLogin, FirstGate, Plus, HasServer;
    assert map[m.user := WAITING_RESPONSE][m.user := WAITING_LOGIN] == map[m.user := WAITING_LOGIN];
    assert Drop(w.net, 0) == [];
  }

  // A gate's own step.
  lemma {:induction false} GateStep(w: World, reg: Reg, l: nat, p: nat, users: map<nat, nat>, g: Gate, clock: nat,
                                    asked: nat, net: seq<Packet>, s: G.Step)
    requires At(w, reg, l, p, users, g, clock, asked, net) && !s.WillLogin? && !s.Confirm?
    ensures var t := G.Next(w.gates[p], s);
      At(Next(w, AtGate(p, s)), reg, l, p, users, t.gate, t.clock, asked, net + Sends(w.gates[p], s))
  {
    hide G.Next, Sends, Ready;
  }

  // An attempt that does not get in: the client is connected, and its record, if
  // there was one, is gone.
  lemma {:induction false} AttemptStage(w: World, reg: Reg, l: nat, p: nat, users: map<nat, nat>, g: Gate, clock: nat,
                                        asked: nat, net: seq<Packet>, s: nat, u: nat, key: string)
    requires At(w, reg, l, p, users, g, clock, asked, net)
    requires s !in g.clients && u !in g.bound && (u in g.pending ==> g.pending[u] != key)
    ensures At(Run(w, Attempt(p, s, u, key)), reg, l, p, users,
      g.(clients := g.clients[s := Client(0, JUST_CONNECT)], pending := g.pending - {u}), clock, asked, net)
  {
    hide Run, Ready, Plus;
    var a, b := G.NewClient(s, true), G.LoginKey(s, u, key);
    RunTwo(w, AtGate(p, a), AtGate(p, b));
    GateStep(w, reg, l, p, users, g, clock, asked, net, a);
    hide Next;
    var w' := Next(w, AtGate(p, a));
    var g' := g.(clients := g.clients[s := Client(0, JUST_CONNECT)]);
    assert net + [] == net;
    GateStep(w', reg, l, p, users, g', clock, asked, net, b);
    if u !in g.pending {
      assert g.pending - {u} == g.pending;
    }
  }

  lemma {:induction false} TickStage(w: World, reg: Reg, l: nat, p: nat, users: map<nat, nat>, g: Gate, clock: nat,
                                     asked: nat, net: seq<Packet>, seconds: nat)
    requires At(w, reg, l, p, users, g, clock, asked, net)
    ensures At(Next(w, AtGate(p, G.Tick(seconds))), reg, l, p, users, g, clock + seconds, asked, net)
  {
    hide Ready;
    assert net + [] == net;
  }

  // ---- A key that does not open the gate -------------------------------------------------

  lemma {:induction false} FirstKeys()
    ensures Decimal(1) == "1" && Decimal(2) == "2"
  {
  }

  // What a gate makes of an announcement that it answers with key `n`.
  lemma {:induction false} Expects(g: Gate, ticket: Ticket, u: nat, clock: nat, n: nat)
    requires u !in g.bound && g.counter == n - 1 && 1 <= n < KEY_COUNT
    ensures WillLoginNext(g, ticket, u, clock) == (
      AddWillConnectNext(g.(counter := n), u, Decimal(n), clock), WillLoginRes(0, ticket, u, Decimal(n)))
  {
    hide Decimal;
  }

  lemma {:induction false} FirstRecord(u: nat)
    ensures AddWillConnectNext(Gate(map[], map[], map[], [], 1), u, "1", 0)
         == Gate(map[], map[], map[u := "1"], [Entry(5, u)], 1)
  {
    assert [] + [Entry(5, u)] == [Entry(5, u)];
  }

  lemma {:induction false} AskedTwiceEnds(reg: Reg, id: Id, l: nat, l': nat, c: nat, u: nat, p: nat)
    requires LoginAt(reg, id, l) && l' !in reg.servers.Values && u != 0
    ensures At(Run(Start(reg), AskedTwice(reg, id, l, l', c, u, p)), Returned(reg, id, l, l'), l', p,
      map[u := WAITING_LOGIN], Gate(map[], map[], map[u := "1"], [Entry(5, u)], 2), 0, 2,
      [Verify(0, Ticket(l', c, 1), u, "2")])
  {
    LoginAtReady(reg, id, l);
    hide Run, Ready, At, Ask, ComeBack, Returned, LoginAt, Decimal, WillLoginNext;
    FirstKeys();
    var ask, back := Ask(l, c, u, p), ComeBack(reg, id, l, l');
    var again, last := Ask(l', c, u, p), [Deliver(0, l', Whole)];
    var reg' := Returned(reg, id, l, l');
    var g0 := Gate(map[], map[], map[], [], 0);
    var g1 := Gate(map[], map[], map[u := "1"], [Entry(5, u)], 1);
    Begins(reg, l, p);
    RunConcat(Start(reg), [StartGate(p)], ask + (back + (again + last)));
    var w1 := Run(Start(reg), [StartGate(p)]);
    AskStage(w1, reg, l, p, g0, 0, 0, c, u);
    Expects(g0, Ticket(l, c, 0), u, 0, 1);
    FirstRecord(u);
    RunConcat(w1, ask, back + (again + last));
    var w2 := Run(w1, ask);
    ComeBackStage(w2, reg, id, l, l', p, g1, 0, 1, u, WillLoginRes(0, Ticket(l, c, 0), u, "1"));
    RunConcat(w2, back, again + last);
    var w3 := Run(w2, back);
    AskStage(w3, reg', l', p, g1, 0, 1, c, u);
    Expects(g1, Ticket(l', c, 1), u, 0, 2);
    RunConcat(w3, again, last);
    AnswerStage(Run(w3, again), reg', l', p, g1.(counter := 2), 0, 2, WillLoginRes(0, Ticket(l', c, 1), u, "2"));
  }

  // The login server is told that key "2" is good while the gate expects "1". The
  // client that presents "2" is kicked and the record is used up, so that no key
  // lets the user in any more; and the master refuses the next request, since
  // the user still waits there (not even the withdrawal nobody sends would remove
  // it).
  lemma {:induction false} HandedOutKeyFails(reg: Reg, id: Id, l: nat, l': nat, c: nat, u: nat, p: nat, s: nat, ticket: Ticket)
    requires LoginAt(reg, id, l) && l' !in reg.servers.Values && u != 0
    requires IsLogin(Returned(reg, id, l, l'), ticket.login)
    ensures var w := Run(Start(reg), AskedTwice(reg, id, l, l', c, u, p));
      && Verify(0, Ticket(l', c, 1), u, "2") in w.net
      && p in w.gates && w.gates[p].gate.pending == map[u := "1"]
    ensures var w := Run(Start(reg), AskedTwice(reg, id, l, l', c, u, p) + Attempt(p, s, u, "2"));
      && w.reg.servers == reg.servers[id := l']
      && p in w.gates && u !in w.gates[p].gate.bound && u !in w.gates[p].gate.pending
      && OfflineFromLoginNext(w.reg, w.users, l', u) == w.users
      && OnlineNext(w.reg, w.users, ticket, u, true) == Handled(w.users, [FailedVerify(ALREADY_ONLINE, ticket, u)], Refused)
  {
    hide Run, Attempt, AskedTwice, IsLogin, FirstGate, Returned;
    AskedTwiceEnds(reg, id, l, l', c, u, p);
    ReturnedIs(reg, id, l, l');
    var w := Run(Start(reg), AskedTwice(reg, id, l, l', c, u, p));
    RunConcat(Start(reg), AskedTwice(reg, id, l, l', c, u, p), Attempt(p, s, u, "2"));
    AttemptStage(w, Returned(reg, id, l, l'), l', p, map[u := WAITING_LOGIN],
      Gate(map[], map[], map[u := "1"], [Entry(5, u)], 2), 0, 2, [Verify(0, Ticket(l', c, 1), u, "2")], s, u, "2");
  }

  // ---- A deadline that expires a newer record --------------------------------------------

  // The gate after the second request: the new record, due at 9, and both
  // deadlines.
  function Fresh(u: nat, s: nat): Gate {
    Gate(map[s := Client(0, JUST_CONNECT)], map[], map[u := "2"], [Entry(5, u), Entry(9, u)], 2)
  }

  function Wasted(u: nat, s: nat): Gate {
    Gate(map[s := Client(0, JUST_CONNECT)], map[], map[], [Entry(5, u)], 1)
  }

  lemma {:induction false} UsedUpEnds(reg: Reg, id: Id, l: nat, l': nat, c: nat, u: nat, p: nat, s: nat)
    requires LoginAt(reg, id, l) && l' !in reg.servers.Values && u != 0
    ensures At(Run(Start(reg), UsedUp(reg, id, l, l', c, u, p, s)), Returned(reg, id, l, l'), l', p, map[], Wasted(u, s), 0, 1, [])
  {
    LoginAtReady(reg, id, l);
    hide Run, Next, Ready, At, Ask, ComeBack, Returned, LoginAt, Attempt, Decimal, WillLoginNext;
    FirstKeys();
    var ask, wrong, back := Ask(l, c, u, p), Attempt(p, s, u, "x"), ComeBack(reg, id, l, l');
    var g0 := Gate(map[], map[], map[], [], 0);
    var g1 := Gate(map[], map[], map[u := "1"], [Entry(5, u)], 1);
    var m := WillLoginRes(0, Ticket(l, c, 0), u, "1");
    Begins(reg, l, p);
    RunConcat(Start(reg), [StartGate(p)], ask + (wrong + back));
    var w1 := Run(Start(reg), [StartGate(p)]);
    AskStage(w1, reg, l, p, g0, 0, 0, c, u);
    Expects(g0, Ticket(l, c, 0), u, 0, 1);
    FirstRecord(u);
    RunConcat(w1, ask, wrong + back);
    var w2 := Run(w1, ask);
    AttemptStage(w2, reg, l, p, map[u := WAITING_RESPONSE], g1, 0, 1, [m], s, u, "x");
    assert map[u := "1"] - {u} == map[];
    RunConcat(w2, wrong, back);
    ComeBackStage(Run(w2, wrong), reg, id, l, l', p, Wasted(u, s), 0, 1, u, m);
  }

  lemma {:induction false} AskedAfreshEnds(reg: Reg, id: Id, l: nat, l': nat, c: nat, u: nat, p: nat, s: nat)
    requires LoginAt(reg, id, l) && l' !in reg.servers.Values && u != 0
    ensures At(Run(Start(reg), AskedAfresh(reg, id, l, l', c, u, p, s)), Returned(reg, id, l, l'), l', p,
      map[u := WAITING_LOGIN], Fresh(u, s), 4, 2, [Verify(0, Ticket(l', c, 1), u, "2")])
  {
    hide Run, Next, Ready, At, Ask, UsedUp, Returned, LoginAt, Decimal, WillLoginNext;
    FirstKeys();
    var first, tick, again, last := UsedUp(reg, id, l, l', c, u, p, s), [AtGate(p, G.Tick(4))], Ask(l', c, u, p), [Deliver(0, l', Whole)];
    var reg', g := Returned(reg, id, l, l'), Wasted(u, s);
    UsedUpEnds(reg, id, l, l', c, u, p, s);
    RunConcat(Start(reg), first, tick + (again + last));
    var w1 := Run(Start(reg), first);
    TickStage(w1, reg', l', p, map[], g, 0, 1, [], 4);
    RunOne(w1, AtGate(p, G.Tick(4)));
    RunConcat(w1, tick, again + last);
    var w2 := Run(w1, tick);
    AskStage(w2, reg', l', p, g, 4, 1, c, u);
    Expects(g, Ticket(l', c, 1), u, 4, 2);
    assert [Entry(5, u)] + [Entry(9, u)] == [Entry(5, u), Entry(9, u)];
    RunConcat(w2, again, last);
    AnswerStage(Run(w2, again), reg', l', p, Fresh(u, s), 4, 2, WillLoginRes(0, Ticket(l', c, 1), u, "2"));
  }

  // What the timer does at six seconds: the first deadline is over, the second
  // is not, and yet the record that belongs to the second is removed.
  lemma {:induction false} Expires(u: nat, s: nat)
    ensures Expire(Fresh(u, s), 6, EXPIRE_BATCH)
         == (Fresh(u, s).(pending := map[], queue := [Entry(9, u)]), [u])
  {
    var g := Fresh(u, s).(pending := map[], queue := [Entry(9, u)]);
    assert Fresh(u, s).queue[1..] == [Entry(9, u)];
    assert Fresh(u, s).pending - {u} == map[];
    assert Expire(g, 6, EXPIRE_BATCH - 1) == (g, []);
    assert [u] + [] == [u];
  }

  lemma {:induction false} TimeOutStage(w: World, reg: Reg, l: nat, p: nat, users: map<nat, nat>, u: nat, s: nat,
                                        asked: nat, m: Packet)
    requires At(w, reg, l, p, users, Fresh(u, s), 4, asked, [m])
    ensures At(Run(w, TimeOut(p)), reg, l, p, users, Fresh(u, s).(pending := map[], queue := [Entry(9, u)]), 6, asked,
      [m, Offline(u)])
  {
    hide Run, Ready, Fresh, Expire;
    RunTwo(w, AtGate(p, G.Tick(2)), AtGate(p, G.Timer));
    TickStage(w, reg, l, p, users, Fresh(u, s), 4, asked, [m], 2);
    var w' := Next(w, AtGate(p, G.Tick(2)));
    hide Next;
    GateStep(w', reg, l, p, users, Fresh(u, s), 6, asked, [m], G.Timer);
    G.TimeoutIsExpire(w'.gates[p], EXPIRE_BATCH);
    Expires(u, s);
    OneOffline(u);
    assert [m] + [Offline(u)] == [m, Offline(u)];
  }

  lemma {:induction false} OneOffline(u: nat)
    ensures Offlines([u]) == [Offline(u)]
  {
    assert [u][1..] == [] && Offlines([]) == [];
  }

  lemma {:induction false} OfflineStage(w: World, reg: Reg, l: nat, p: nat, g: Gate, clock: nat, asked: nat, u: nat, m: Packet)
    requires At(w, reg, l, p, map[u := WAITING_LOGIN], g, clock, asked, [m, Offline(u)])
    ensures At(Run(w, [Deliver(1, l, Whole)]), reg, l, p, map[], g, clock, asked, [m])
  {
    hide Run, Ready;
    RunOne(w, Deliver(1, l, Whole));
    assert Drop(w.net, 1) == [m];
    assert map[u := WAITING_LOGIN] - {u} == map[];
  }

  // The second record is added at four seconds and due at nine; the timer, if it
  // is run at six, removes it with the deadline of the first, and its report
  // removes the user at the master. The client that then presents the key it was
  // handed is kicked.
  lemma {:induction false} StaleDeadlineExpires(reg: Reg, id: Id, l: nat, l': nat, c: nat, u: nat, p: nat, s: nat, s': nat)
    requires LoginAt(reg, id, l) && l' !in reg.servers.Values && u != 0 && s != s'
    ensures var w := Run(Start(reg), AskedAfresh(reg, id, l, l', c, u, p, s));
      && Verify(0, Ticket(l', c, 1), u, "2") in w.net
      && p in w.gates && w.gates[p].clock == 4 && w.gates[p].gate.pending == map[u := "2"]
      && w.users == map[u := WAITING_LOGIN]
    ensures var late := TimeOut(p) + ([Deliver(1, l', Whole)] + Attempt(p, s', u, "2"));
      var w := Run(Start(reg), AskedAfresh(reg, id, l, l', c, u, p, s) + late);
      && p in w.gates && w.gates[p].clock == 6 && w.gates[p].gate.queue == [Entry(9, u)]
      && u !in w.gates[p].gate.pending && u !in w.gates[p].gate.bound
      && w.users == map[]
  {
    hide Run, Next, Ready, Attempt, AskedAfresh, TimeOut, Returned;
    AskedAfreshEnds(reg, id, l, l', c, u, p, s);
    var reg' := Returned(reg, id, l, l');
    var w1 := Run(Start(reg), AskedAfresh(reg, id, l, l', c, u, p, s));
    var m := Verify(0, Ticket(l', c, 1), u, "2");
    var attempt, report := Attempt(p, s', u, "2"), [Deliver(1, l', Whole)];
    var g := Fresh(u, s).(pending := map[], queue := [Entry(9, u)]);
    RunConcat(Start(reg), AskedAfresh(reg, id, l, l', c, u, p, s), TimeOut(p) + (report + attempt));
    RunConcat(w1, TimeOut(p), report + attempt);
    TimeOutStage(w1, reg', l', p, map[u := WAITING_LOGIN], u, s, 2, m);
    var w2 := Run(w1, TimeOut(p));
    RunConcat(w2, report, attempt);
    OfflineStage(w2, reg', l', p, g, 6, 2, u, m);
    AttemptStage(Run(w2, report), reg', l', p, map[], g, 6, 2, [m], s', u, "2");
  }

  // ---- A login that times out ----------------------------------------------------------

  // A client presents the key it was handed, and the gate's report arrives
  // through the session `gs`.
  function LogsIn(l: nat, c: nat, u: nat, p: nat, s: nat, gs: nat): seq<Step> {
    [StartGate(p)] + (Ask(l, c, u, p) + ([Deliver(0, l, Whole)] + (Attempt(p, s, u, "1") + [Deliver(1, gs, Whole)])))
  }

  function Bound(u: nat, s: nat, queue: seq<Entry>): Gate {
    Gate(map[s := Client(u, WAITING_CONFIRM)], map[u := s], map[], queue, 1)
  }

  lemma {:induction false} RightStage(w: World, reg: Reg, l: nat, p: nat, users: map<nat, nat>, u: nat, asked: nat,
                                      m: Packet, s: nat)
    requires At(w, reg, l, p, users, Gate(map[], map[], map[u := "1"], [Entry(5, u)], 1), 0, asked, [m])
    ensures At(Run(w, Attempt(p, s, u, "1")), reg, l, p, users, Bound(u, s, [Entry(5, u)]), 0, asked, [m, Report(s, u)])
  {
    hide Run, Ready, Plus;
    var g := Gate(map[], map[], map[u := "1"], [Entry(5, u)], 1);
    var a, b := G.NewClient(s, true), G.LoginKey(s, u, "1");
    RunTwo(w, AtGate(p, a), AtGate(p, b));
    GateStep(w, reg, l, p, users, g, 0, asked, [m], a);
    hide Next;
    var w' := Next(w, AtGate(p, a));
    var g' := g.(clients := map[s := Client(0, JUST_CONNECT)]);
    assert [m] + [] == [m] && map[][s := Client(0, JUST_CONNECT)] == map[s := Client(0, JUST_CONNECT)];
    GateStep(w', reg, l, p, users, g', 0, asked, [m], b);
    RightKey(u, s);
    assert [m] + [Report(s, u)] == [m, Report(s, u)];
  }

  lemma {:induction false} RightKey(u: nat, s: nat)
    ensures LoginKeyNext(Gate(map[s := Client(0, JUST_CONNECT)], map[], map[u := "1"], [Entry(5, u)], 1), s, u, "1")
         == (Bound(u, s, [Entry(5, u)]), KeyOutcome.Reported)
  {
    assert map[u := "1"] - {u} == map[];
    var c0, none := map[s := Client(0, JUST_CONNECT)], map[];
    assert c0[s := Client(u, INITIALIZE)][s := Client(u, WAITING_CONFIRM)] == map[s := Client(u, WAITING_CONFIRM)];
    assert none[u := s] == map[u := s];
  }

  lemma {:induction false} ReportStage(w: World, reg: Reg, l: nat, p: nat, g: Gate, asked: nat, u: nat, s: nat,
                                       m: Packet, gs: nat)
    requires At(w, reg, l, p, map[u := WAITING_LOGIN], g, 0, asked, [m, Report(s, u)]) && HasServer(reg, gs)
    ensures At(Run(w, [Deliver(1, gs, Whole)]), reg, l, p, map[u := CONNECTED], g, 0, asked, [m, Confirm(gs, 0, u, s)])
  {
    hide Run, Ready, Plus, HasServer;
    RunOne(w, Deliver(1, gs, Whole));
    assert Drop(w.net, 1) == [m];
    assert map[u := WAITING_LOGIN][u := CONNECTED] == map[u := CONNECTED];
  }

  lemma {:induction false} LogsInEnds(reg: Reg, l: nat, c: nat, u: nat, p: nat, s: nat, gs: nat)
    requires Ready(reg, l) && u != 0 && HasServer(reg, gs)
    ensures At(Run(Start(reg), LogsIn(l, c, u, p, s, gs)), reg, l, p, map[u := CONNECTED],
      Bound(u, s, [Entry(5, u)]), 0, 1, [Verify(0, Ticket(l, c, 0), u, "1"), Confirm(gs, 0, u, s)])
  {
    hide Run, Next, Ready, At, Ask, Attempt, Decimal, WillLoginNext, HasServer;
    FirstKeys();
    var ask, answer, right, report := Ask(l, c, u, p), [Deliver(0, l, Whole)], Attempt(p, s, u, "1"), [Deliver(1, gs, Whole)];
    var g0 := Gate(map[], map[], map[], [], 0);
    var g1 := Gate(map[], map[], map[u := "1"], [Entry(5, u)], 1);
    var m := Verify(0, Ticket(l, c, 0), u, "1");
    Begins(reg, l, p);
    RunConcat(Start(reg), [StartGate(p)], ask + (answer + (right + report)));
    var w1 := Run(Start(reg), [StartGate(p)]);
    AskStage(w1, reg, l, p, g0, 0, 0, c, u);
    Expects(g0, Ticket(l, c, 0), u, 0, 1);
    FirstRecord(u);
    RunConcat(w1, ask, answer + (right + report));
    var w2 := Run(w1, ask);
    AnswerStage(w2, reg, l, p, g1, 0, 1, WillLoginRes(0, Ticket(l, c, 0), u, "1"));
    RunConcat(w2, answer, right + report);
    var w3 := Run(w2, answer);
    RightStage(w3, reg, l, p, map[u := WAITING_LOGIN], u, 1, m, s);
    RunConcat(w3, right, report);
    ReportStage(Run(w3, right), reg, l, p, Bound(u, s, [Entry(5, u)]), 1, u, s, m, gs);
  }

  function Late(p: nat): seq<Step> {
    [AtGate(p, G.Tick(6)), AtGate(p, G.Timer)]
  }

  lemma {:induction false} LateStage(w: World, reg: Reg, l: nat, p: nat, users: map<nat, nat>, u: nat, s: nat,
                                     asked: nat, net: seq<Packet>)
    requires At(w, reg, l, p, users, Bound(u, s, [Entry(5, u)]), 0, asked, net)
    ensures At(Run(w, Late(p)), reg, l, p, users, Bound(u, s, []), 6, asked, net + [Offline(u)])
  {
    hide Run, Ready, Expire;
    RunTwo(w, AtGate(p, G.Tick(6)), AtGate(p, G.Timer));
    TickStage(w, reg, l, p, users, Bound(u, s, [Entry(5, u)]), 0, asked, net, 6);
    var w' := Next(w, AtGate(p, G.Tick(6)));
    hide Next;
    GateStep(w', reg, l, p, users, Bound(u, s, [Entry(5, u)]), 6, asked, net, G.Timer);
    G.TimeoutIsExpire(w'.gates[p], EXPIRE_BATCH);
    LateExpires(u, s);
    OneOffline(u);
  }

  lemma {:induction false} LateExpires(u: nat, s: nat)
    ensures Expire(Bound(u, s, [Entry(5, u)]), 6, EXPIRE_BATCH) == (Bound(u, s, []), [u])
  {
    var none: map<nat, string> := map[];
    assert none - {u} == none && [Entry(5, u)][1..] == [];
    assert Expire(Bound(u, s, []), 6, EXPIRE_BATCH - 1) == (Bound(u, s, []), []);
    assert [u] + [] == [u];
  }

  // The user has logged in and the master marks it connected. If the timer of the
  // gate is run six seconds later it reports the user OFFLINE, and the master
  // removes the user that is still logged in at the gate.
  lemma {:induction false} LoggedInUserRemoved(reg: Reg, l: nat, c: nat, u: nat, p: nat, s: nat, gs: nat)
    requires Ready(reg, l) && u != 0 && HasServer(reg, gs)
    ensures var w := Run(Start(reg), LogsIn(l, c, u, p, s, gs));
      && w.users == map[u := CONNECTED]
      && p in w.gates && u in w.gates[p].gate.bound
    ensures var w := Run(Start(reg), LogsIn(l, c, u, p, s, gs) + (Late(p) + [Deliver(2, l, Whole)]));
      && w.users == map[]
      && p in w.gates && w.gates[p].gate.queue == [] && u in w.gates[p].gate.bound
  {
    hide Run, Next, Ready, LogsIn, Late, HasServer;
    LogsInEnds(reg, l, c, u, p, s, gs);
    var w1 := Run(Start(reg), LogsIn(l, c, u, p, s, gs));
    var net := [Verify(0, Ticket(l, c, 0), u, "1"), Confirm(gs, 0, u, s)];
    RunConcat(Start(reg), LogsIn(l, c, u, p, s, gs), Late(p) + [Deliver(2, l, Whole)]);
    RunConcat(w1, Late(p), [Deliver(2, l, Whole)]);
    LateStage(w1, reg, l, p, map[u := CONNECTED], u, s, 1, net);
    RemovalStage(Run(w1, Late(p)), reg, l, p, Bound(u, s, []), 6, 1, u, net);
  }

  lemma {:induction false} RemovalStage(w: World, reg: Reg, l: nat, p: nat, g: Gate, clock: nat, asked: nat, u: nat,
                                        net: seq<Packet>)
    requires At(w, reg, l, p, map[u := CONNECTED], g, clock, asked, net + [Offline(u)]) && |net| == 2
    ensures At(Run(w, [Deliver(2, l, Whole)]), reg, l, p, map[], g, clock, asked, net)
  {
    hide Run, Ready;
    RunOne(w, Deliver(2, l, Whole));
    assert Drop(w.net, 2) == net;
    assert map[u := CONNECTED] - {u} == map[];
  }
}
