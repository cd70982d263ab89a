// The login protocol as a whole: one master, any number of gates, and a network
// that delivers each packet at most once and in any order.
module Admission {
  import opened Decimals
  import opened Tallies
  import opened Registry
  import opened LoginKeys
  import opened LoginPackets
  import opened MasterUsers
  import opened MasterLogin
  import opened GateClients
  import G = GateRuns

  // What happened to a user at the master or to its packets under way.
  datatype Fact =
    | Accepted(user: nat)
    | Gateless(user: nat)
    | Sent(user: nat)
    | Unsent(user: nat)
    | LostWill(user: nat)
    | LostReport(user: nat)
    | IgnoredReport(user: nat)
    | UnknownReport(user: nat)
    | Online(user: nat)

  datatype Asked = Asked(login: nat, client: nat, user: nat)

  // `asked` holds the requests the master received from login servers; each of
  // its indices is counted in one of the next three when a verdict is sent, when
  // the answer of the gate is dropped, or when a packet is lost or there was none
  // to send.
  datatype World = World(
    reg: Reg,
    users: map<nat, nat>,
    gates: map<nat, G.Trace>,
    net: seq<Packet>,
    tally: multiset<Fact>,
    asked: seq<Asked>,
    answered: multiset<nat>,
    dropped: multiset<nat>,
    lost: multiset<nat>)

  // `at` is the gate process that gets a packet, or the session at the master
  // through which a gate's packet arrives. Which process stands behind which
  // session is left open, and the registry may change in any way. `packet` says
  // whether the master finds a packet to send, and `reading` how much it can read
  // of a gate's answer; any other packet that cannot be read is as good as lost.
  // `Withdraw` is left in although its handler is never registered: what holds of
  // all runs holds of those without it.
  datatype Step =
    | Request(login: nat, client: nat, user: nat, packet: bool)
    | Withdraw(login: nat, user: nat)
    | Deliver(i: nat, at: nat, reading: Reading)
    | Lose(i: nat)
    | AtGate(p: nat, s: G.Step)
    | StartGate(p: nat)
    | Reregister(reg: Reg)

  function Start(reg: Reg): World {
    World(reg, map[], map[], [], multiset{}, [], multiset{}, multiset{}, multiset{})
  }

  function Drop(net: seq<Packet>, i: nat): seq<Packet>
    requires i < |net|
  {
    net[..i] + net[i + 1..]
  }

  // ---- One step ---------------------------------------------------------------------

  // What became of an accepted request.
  function Outcome(t: multiset<Fact>, fact: MasterLogin.Fact, user: nat): multiset<Fact> {
    if fact.NoGate? then Plus(t, Gateless(user))
    else if fact.Forwarded? then Plus(t, Sent(user))
    else if fact.Unsent? then Plus(t, Fact.Unsent(user))
    else t
  }

  function RequestNext(w: World, login: nat, client: nat, user: nat, packet: bool): World {
    if !IsLogin(w.reg, login) then w
    else
      var r := |w.asked|;
      var h := OnlineNext(w.reg, w.users, Ticket(login, client, r), user, packet);
      var t := if h.fact.Refused? then w.tally else Plus(w.tally, Accepted(user));
      w.(users := h.users, net := w.net + h.sent, asked := w.asked + [Asked(login, client, user)],
         tally := Outcome(t, h.fact, user),
         answered := if h.sent == [] || h.fact.Forwarded? then w.answered else Plus(w.answered, r),
         lost := if h.sent == [] then Plus(w.lost, r) else w.lost)
  }

  function ReplyNext(w: World, m: Packet, reading: Reading): World
    requires m.WillLoginRes?
  {
    var h := WillLoginResNext(w.reg, w.users, m.result, m.ticket, m.user, m.key, reading);
    var r := m.ticket.request;
    if h.fact.Unreadable? then w.(lost := Plus(w.lost, r))
    else if h.fact.LoginGone? || h.fact.UserGone? then w.(users := h.users, dropped := Plus(w.dropped, r))
    else w.(users := h.users, net := w.net + h.sent, answered := Plus(w.answered, r))
  }

  function ReportedNext(w: World, m: Packet, at: nat): World
    requires m.Report?
  {
    var h := ReportNext(w.reg, w.users, at, m.client, m.user);
    w.(users := h.users, net := w.net + h.sent,
       tally := Plus(w.tally, if h.fact.Ignored? then IgnoredReport(m.user)
         else if h.fact.Unknown? then UnknownReport(m.user) else Online(m.user)))
  }

  // A packet reaches a gate that is not there only by being lost.
  function DeliverNext(w: World, i: nat, at: nat, reading: Reading): World {
    if i >= |w.net| then w
    else
      var m := w.net[i];
      var w' := w.(net := Drop(w.net, i));
      match m
      case WillLogin(_, ticket, user) =>
        if at !in w.gates then w
        else w'.(gates := w.gates[at := G.Next(w.gates[at], G.WillLogin(ticket, user))],
                 net := w'.net + [WillLoginNext(w.gates[at].gate, ticket, user, w.gates[at].clock).1])
      case WillLoginRes(_, _, _, _) => ReplyNext(w', m, reading)
      case Verify(_, _, _, _) => w'
      case Report(_, _) => ReportedNext(w', m, at)
      case Confirm(_, result, _, client) =>
        if at !in w.gates then w
        else w'.(gates := w.gates[at := G.Next(w.gates[at], G.Confirm(result, client))])
      case Offline(user) => w'.(users := OfflineFromGateNext(w.users, user))
  }

  function LoseNext(w: World, i: nat): World {
    if i >= |w.net| then w
    else
      var w' := w.(net := Drop(w.net, i));
      match w.net[i]
      case WillLogin(_, ticket, user) =>
        w'.(tally := Plus(w.tally, LostWill(user)), lost := Plus(w.lost, ticket.request))
      case WillLoginRes(_, ticket, _, _) => w'.(lost := Plus(w.lost, ticket.request))
      case Report(_, user) => w'.(tally := Plus(w.tally, LostReport(user)))
      case _ => w'
  }

  function Offlines(users: seq<nat>): seq<Packet> {
    if users == [] then [] else [Offline(users[0])] + Offlines(users[1..])
  }

  // What a gate sends on its own account.
  function Sends(t: G.Trace, s: G.Step): seq<Packet> {
    match s
    case LoginKey(session, user, key) =>
      if LoginKeyNext(t.gate, session, user, key).1.Reported? then [Report(session, user)] else []
    case Timer => Offlines(Expire(t.gate, t.clock, EXPIRE_BATCH).1)
    case _ => []
  }

  function AtGateNext(w: World, p: nat, s: G.Step): World {
    if p !in w.gates || s.WillLogin? || s.Confirm? then w
    else w.(gates := w.gates[p := G.Next(w.gates[p], s)], net := w.net + Sends(w.gates[p], s))
  }

  function Next(w: World, step: Step): World {
    match step
    case Request(login, client, user, packet) => RequestNext(w, login, client, user, packet)
    case Withdraw(login, user) => w.(users := OfflineFromLoginNext(w.reg, w.users, login, user))
    case Deliver(i, at, reading) => DeliverNext(w, i, at, reading)
    case Lose(i) => LoseNext(w, i)
    case AtGate(p, s) => AtGateNext(w, p, s)
    case StartGate(p) => if p in w.gates then w else w.(gates := w.gates[p := G.Start()])
    case Reregister(reg) => w.(reg := reg)
  }

  function Run(w: World, steps: seq<Step>): World
    decreases |steps|
  {
    if steps == [] then w else Run(Next(w, steps[0]), steps[1..])
  }

  // ---- Counting over the network and over the gates -----------------------------------

  datatype Tag = Wills(user: nat) | Reports(user: nat) | Of(request: nat)

  predicate Is(m: Packet, tag: Tag) {
    match tag
    case Wills(user) => m.WillLogin? && m.user == user
    case Reports(user) => m.Report? && m.user == user
    case Of(request) => (m.WillLogin? || m.WillLoginRes?) && m.ticket.request == request
  }

  function InNet(net: seq<Packet>, tag: Tag): nat {
    if net == [] then 0 else Once(Is(net[0], tag)) + InNet(net[1..], tag)
  }

  lemma {:induction false} InNetConcat(a: seq<Packet>, b: seq<Packet>, tag: Tag)
    ensures InNet(a + b, tag) == InNet(a, tag) + InNet(b, tag)
  {
    if a == [] {
      assert a + b == b;
    } else {
      InNetConcat(a[1..], b, tag);
      assert (a + b)[1..] == a[1..] + b;
    }
  }

  lemma {:induction false} InNetDrop(net: seq<Packet>, i: nat, tag: Tag)
    requires i < |net|
    ensures InNet(net, tag) == InNet(Drop(net, i), tag) + Once(Is(net[i], tag))
  {
    hide InNet, Is;
    assert net == net[..i] + ([net[i]] + net[i + 1..]);
    InNetConcat(net[..i], [net[i]] + net[i + 1..], tag);
    InNetConcat([net[i]], net[i + 1..], tag);
    InNetConcat(net[..i], net[i + 1..], tag);
    InNetOne(net[i], tag);
  }

  lemma {:induction false} InNetOne(m: Packet, tag: Tag)
    ensures InNet([m], tag) == Once(Is(m, tag)) && InNet([], tag) == 0
  {
    hide Is;
    assert [m][1..] == [];
  }

  lemma {:induction false} InNetOfflines(users: seq<nat>, tag: Tag)
    ensures InNet(Offlines(users), tag) == 0
  {
    if users != [] {
      InNetOfflines(users[1..], tag);
      assert Offlines(users)[1..] == Offlines(users[1..]);
    }
  }

  ghost function Total(gates: map<nat, G.Trace>, f: G.Fact): nat
    decreases |gates|
  {
    if gates == map[] then 0
    else
      var p :| p in gates;
      gates[p].tally[f] + Total(gates - {p}, f)
  }

  lemma {:induction false} TotalSplit(gates: map<nat, G.Trace>, p: nat, f: G.Fact)
    requires p in gates
    ensures Total(gates, f) == gates[p].tally[f] + Total(gates - {p}, f)
    decreases |gates|
  {
    var q :| q in gates && Total(gates, f) == gates[q].tally[f] + Total(gates - {q}, f);
    if q != p {
      TotalSplit(gates - {q}, p, f);
      TotalSplit(gates - {p}, q, f);
      assert gates - {q} - {p} == gates - {p} - {q};
    }
  }

  lemma {:induction false} TotalUpdate(gates: map<nat, G.Trace>, p: nat, t: G.Trace, f: G.Fact)
    ensures Total(gates[p := t], f) + (if p in gates then gates[p].tally[f] else 0) == Total(gates, f) + t.tally[f]
  {
    hide Total;
    TotalSplit(gates[p := t], p, f);
    assert gates[p := t] - {p} == gates - {p};
    if p in gates {
      TotalSplit(gates, p, f);
    } else {
      assert gates - {p} == gates;
    }
  }

  lemma {:induction false} TotalAtMost(gates: map<nat, G.Trace>, f: G.Fact, g: G.Fact)
    requires forall p <- gates :: gates[p].tally[f] <= gates[p].tally[g]
    ensures Total(gates, f) <= Total(gates, g)
    decreases |gates|
  {
    if gates != map[] {
      var p :| p in gates;
      TotalSplit(gates, p, f);
      TotalSplit(gates, p, g);
      TotalAtMost(gates - {p}, f, g);
    }
  }

  lemma {:induction false} SomeGate(gates: map<nat, G.Trace>, f: G.Fact)
    requires Total(gates, f) > 0
    ensures exists p <- gates :: gates[p].tally[f] > 0
    decreases |gates|
  {
    var p :| p in gates;
    TotalSplit(gates, p, f);
    if gates[p].tally[f] == 0 {
      SomeGate(gates - {p}, f);
      var q :| q in gates - {p} && (gates - {p})[q].tally[f] > 0;
      assert gates[q].tally[f] > 0;
    }
  }

  // ---- What every step keeps ----------------------------------------------------------

  // The accounts of one user, given its announcements and reports under way,
  // those handled and made by all gates, and whether it is marked connected.
  // Acceptances found no gate, found no packet, or were sent to a gate; those are
  // under way, lost, or handled by a gate; the reports of all gates are under
  // way, lost, or were taken by the master; a user marked connected was reported
  // by a gate.
  ghost predicate Tallied(f: multiset<Fact>, u: nat, wills: nat, handled: nat, reports: nat, reported: nat, connected: bool) {
    && f[Accepted(u)] == f[Gateless(u)] + f[Sent(u)] + f[Fact.Unsent(u)]
    && f[Sent(u)] == wills + f[LostWill(u)] + handled
    && reported == reports + f[LostReport(u)] + f[IgnoredReport(u)] + f[UnknownReport(u)] + f[Online(u)]
    && (connected ==> f[Online(u)] > 0)
  }

  predicate IsConnected(users: map<nat, nat>, u: nat) {
    u in users && users[u] == CONNECTED
  }

  ghost predicate Balanced(w: World, u: nat) {
    Tallied(w.tally, u, InNet(w.net, Wills(u)), Total(w.gates, G.Handled(u)),
      InNet(w.net, Reports(u)), Total(w.gates, G.Fact.Reported(u)), IsConnected(w.users, u))
  }

  // Every request is in exactly one place.
  ghost predicate Settled(w: World, r: nat) {
    InNet(w.net, Of(r)) + w.answered[r] + w.dropped[r] + w.lost[r] == Once(r < |w.asked|)
  }

  // Packets that belong to a request carry what it asked.
  predicate Answers(m: Packet, asked: seq<Asked>) {
    m.WillLogin? || m.WillLoginRes? || m.Verify? ==>
      m.ticket.request < |asked| && asked[m.ticket.request] == Asked(m.ticket.login, m.ticket.client, m.user)
  }

  ghost predicate Traceable(w: World) {
    forall i | 0 <= i < |w.net| :: Answers(w.net[i], w.asked)
  }

  ghost predicate Inv(w: World) {
    && (forall u: nat :: Balanced(w, u))
    && (forall r: nat :: Settled(w, r))
    && Traceable(w)
    && (forall p <- w.gates :: G.Inv(w.gates[p]))
  }

  // ---- Requests -----------------------------------------------------------------------

  lemma {:induction false} OnlineEffect(reg: Reg, users: map<nat, nat>, ticket: Ticket, user: nat, packet: bool, tag: Tag)
    ensures var h := OnlineNext(reg, users, ticket, user, packet);
      && (h.users == users || h.users == users[user := CREATED] || h.users == users[user := WAITING_RESPONSE])
      && (h.fact.Ignored? <==> !IsLogin(reg, ticket.login))
      && (h.fact.Ignored? || h.fact.Refused? || h.fact.NoGate? || h.fact.Forwarded? || h.fact.Unsent?)
      && (h.fact.Forwarded? ==> h.sent != []) && (h.fact.Unsent? ==> h.sent == [])
      && InNet(h.sent, tag) == Once(h.fact.Forwarded? && (tag == Wills(user) || tag == Of(ticket.request)))
      && (forall m <- h.sent :: (m.WillLogin? || m.Verify?) && m.ticket == ticket && m.user == user)
  {
    hide InNet, IsLogin, FirstGate;
    var h := OnlineNext(reg, users, ticket, user, packet);
    InNetOne(if h.sent == [] then Offline(user) else h.sent[0], tag);
  }

  lemma {:induction false} RequestTallied(f: multiset<Fact>, fact: MasterLogin.Fact, user: nat, u: nat,
                                         wills: nat, handled: nat, reports: nat, reported: nat, was: bool, connected: bool)
    requires Tallied(f, u, wills, handled, reports, reported, was) && (connected ==> was)
    requires fact.Refused? || fact.NoGate? || fact.Forwarded? || fact.Unsent?
    ensures var g := Outcome(if fact.Refused? then f else Plus(f, Accepted(user)), fact, user);
      Tallied(g, u, wills + Once(fact.Forwarded? && user == u), handled, reports, reported, connected)
  {
    hide Plus;
  }

  lemma {:induction false} RequestBalanced(w: World, login: nat, client: nat, user: nat, packet: bool, u: nat)
    requires Balanced(w, u)
    ensures Balanced(RequestNext(w, login, client, user, packet), u)
  {
    hide InNet, Total, Plus, IsLogin, OnlineNext, Tallied, Outcome;
    var ticket := Ticket(login, client, |w.asked|);
    var h := OnlineNext(w.reg, w.users, ticket, user, packet);
    if IsLogin(w.reg, login) {
      OnlineEffect(w.reg, w.users, ticket, user, packet, Wills(u));
      OnlineEffect(w.reg, w.users, ticket, user, packet, Reports(u));
      InNetConcat(w.net, h.sent, Wills(u));
      InNetConcat(w.net, h.sent, Reports(u));
      RequestTallied(w.tally, h.fact, user, u, InNet(w.net, Wills(u)), Total(w.gates, G.Handled(u)),
        InNet(w.net, Reports(u)), Total(w.gates, G.Fact.Reported(u)), IsConnected(w.users, u), IsConnected(h.users, u));
    }
  }

  lemma {:induction false} RequestSettled(w: World, login: nat, client: nat, user: nat, packet: bool, r: nat)
    requires Settled(w, r)
    ensures Settled(RequestNext(w, login, client, user, packet), r)
  {
    hide InNet, Plus, IsLogin, OnlineNext;
    var ticket := Ticket(login, client, |w.asked|);
    var h := OnlineNext(w.reg, w.users, ticket, user, packet);
    OnlineEffect(w.reg, w.users, ticket, user, packet, Of(r));
    InNetConcat(w.net, h.sent, Of(r));
  }

  lemma {:induction false} RequestTraceable(w: World, login: nat, client: nat, user: nat, packet: bool)
    requires Traceable(w)
    ensures Traceable(RequestNext(w, login, client, user, packet))
  {
    hide Plus, IsLogin, OnlineNext;
    var ticket := Ticket(login, client, |w.asked|);
    OnlineEffect(w.reg, w.users, ticket, user, packet, Of(0));
  }

  // ---- What a gate's step changes in its history ---------------------------------------

  lemma {:induction false} TimeoutTallies(t: G.Trace, budget: nat, u: nat)
    ensures var t' := G.Timeout(t, budget);
      && t'.tally[G.Handled(u)] == t.tally[G.Handled(u)]
      && t'.tally[G.Fact.Reported(u)] == t.tally[G.Fact.Reported(u)]
    decreases budget
  {
    hide Plus;
    if budget != 0 && G.Due(t) {
      TimeoutTallies(G.Pop(t), budget - 1, u);
    }
  }

  lemma {:induction false} GateTallies(t: G.Trace, s: G.Step, u: nat)
    ensures var t' := G.Next(t, s);
      && t'.tally[G.Handled(u)] == t.tally[G.Handled(u)] + Once(s.WillLogin? && s.user == u)
      && t'.tally[G.Fact.Reported(u)] == t.tally[G.Fact.Reported(u)] + InNet(Sends(t, s), Reports(u))
  {
    hide Plus, G.Timeout, WillLoginNext, InNet, Offlines, Expire, LoginKeyNext;
    if s.Timer? {
      TimeoutTallies(t, EXPIRE_BATCH, u);
      InNetOfflines(Expire(t.gate, t.clock, EXPIRE_BATCH).1, Reports(u));
    } else if s.LoginKey? {
      G.LoginKeyEffect(t.gate, s.session, s.user, s.key);
      InNetOne(Report(s.session, s.user), Reports(u));
    } else {
      InNetOne(Offline(u), Reports(u));
    }
  }

  // A gate sends no packet that belongs to a request on its own account.
  lemma {:induction false} SendsNoTickets(t: G.Trace, s: G.Step, tag: Tag)
    requires !tag.Reports?
    ensures InNet(Sends(t, s), tag) == 0
  {
    hide InNet, Offlines, Expire, LoginKeyNext;
    InNetOfflines(Expire(t.gate, t.clock, EXPIRE_BATCH).1, tag);
    if s.LoginKey? {
      InNetOne(Report(s.session, s.user), tag);
    }
    InNetOne(Offline(0), tag);
  }

  lemma {:induction false} AtGateBalanced(w: World, p: nat, s: G.Step, u: nat)
    requires Balanced(w, u)
    ensures Balanced(AtGateNext(w, p, s), u)
  {
    hide InNet, Total, G.Next, Sends;
    if p in w.gates && !s.WillLogin? && !s.Confirm? {
      var t, t' := w.gates[p], G.Next(w.gates[p], s);
      GateTallies(t, s, u);
      SendsNoTickets(t, s, Wills(u));
      InNetConcat(w.net, Sends(t, s), Wills(u));
      InNetConcat(w.net, Sends(t, s), Reports(u));
      TotalUpdate(w.gates, p, t', G.Handled(u));
      TotalUpdate(w.gates, p, t', G.Fact.Reported(u));
    }
  }

  lemma {:induction false} AtGateSettled(w: World, p: nat, s: G.Step, r: nat)
    requires Settled(w, r)
    ensures Settled(AtGateNext(w, p, s), r)
  {
    hide InNet, G.Next, Sends;
    if p in w.gates {
      SendsNoTickets(w.gates[p], s, Of(r));
      InNetConcat(w.net, Sends(w.gates[p], s), Of(r));
    }
  }

  lemma {:induction false} StartGateBalanced(w: World, p: nat, u: nat)
    requires Balanced(w, u)
    ensures Balanced(Next(w, StartGate(p)), u)
  {
    hide InNet, Total;
    TotalUpdate(w.gates, p, G.Start(), G.Handled(u));
    TotalUpdate(w.gates, p, G.Start(), G.Fact.Reported(u));
  }

  lemma {:induction false} OnlyOfflines(users: seq<nat>)
    ensures forall m <- Offlines(users) :: m.Offline?
  {
    if users != [] {
      OnlyOfflines(users[1..]);
    }
  }

  lemma {:induction false} AppendTraceable(w: World, sent: seq<Packet>)
    requires Traceable(w) && forall m <- sent :: Answers(m, w.asked)
    ensures Traceable(w.(net := w.net + sent))
  {
    hide Answers;
    var net := w.net + sent;
    forall i | 0 <= i < |net|
      ensures Answers(net[i], w.asked)
    {
      if i >= |w.net| {
        assert net[i] == sent[i - |w.net|];
      }
    }
  }

  lemma {:induction false} AtGateTraceable(w: World, p: nat, s: G.Step)
    requires Traceable(w)
    ensures Traceable(AtGateNext(w, p, s))
  {
    hide G.Next, Expire, LoginKeyNext, Traceable;
    if p in w.gates && !s.WillLogin? && !s.Confirm? {
      OnlyOfflines(Expire(w.gates[p].gate, w.gates[p].clock, EXPIRE_BATCH).1);
      AppendTraceable(w, Sends(w.gates[p], s));
      SameTraceable(w.(net := w.net + Sends(w.gates[p], s)), AtGateNext(w, p, s));
    }
  }

  lemma {:induction false} SameTraceable(w: World, w': World)
    requires Traceable(w) && w'.net == w.net && w'.asked == w.asked
    ensures Traceable(w')
  {
  }

  // ---- Deliveries -----------------------------------------------------------------------

  lemma {:induction false} DropTraceable(w: World, i: nat)
    requires Traceable(w) && i < |w.net|
    ensures Traceable(w.(net := Drop(w.net, i)))
    ensures Answers(w.net[i], w.asked)
  {
    hide Answers;
    var net := Drop(w.net, i);
    forall j | 0 <= j < |net|
      ensures Answers(net[j], w.asked)
    {
      assert net[j] == w.net[if j < i then j else j + 1];
    }
  }

  lemma {:induction false} WillLoginDelivered(w: World, i: nat, at: nat, reading: Reading, u: nat, r: nat)
    requires i < |w.net| && w.net[i].WillLogin? && at in w.gates
    requires Balanced(w, u) && Settled(w, r)
    ensures Balanced(DeliverNext(w, i, at, reading), u) && Settled(DeliverNext(w, i, at, reading), r)
  {
    hide InNet, Total, G.Next, WillLoginNext;
    var m, t := w.net[i], w.gates[at];
    var s := G.WillLogin(m.ticket, m.user);
    var reply := WillLoginNext(t.gate, m.ticket, m.user, t.clock).1;
    ReplyOf(t.gate, m.ticket, m.user, t.clock);
    GateTallies(t, s, u);
    InNetOne(reply, Reports(u));
    forall tag | tag in [Wills(u), Reports(u), Of(r)]
      ensures InNet(DeliverNext(w, i, at, reading).net, tag) == InNet(w.net, tag) - Once(Is(m, tag)) + Once(Is(reply, tag))
    {
      InNetDrop(w.net, i, tag);
      InNetConcat(Drop(w.net, i), [reply], tag);
      InNetOne(reply, tag);
    }
    TotalUpdate(w.gates, at, G.Next(t, s), G.Handled(u));
    TotalUpdate(w.gates, at, G.Next(t, s), G.Fact.Reported(u));
  }

  lemma {:induction false} ReplyOf(g: Gate, ticket: Ticket, user: nat, now: nat)
    ensures var reply := WillLoginNext(g, ticket, user, now).1;
      reply.WillLoginRes? && reply.ticket == ticket && reply.user == user
  {
  }

  // One packet is taken and at most one other is put on the network.
  lemma {:induction false} Exchanged(net: seq<Packet>, i: nat, sent: seq<Packet>, tag: Tag)
    requires i < |net| && |sent| <= 1
    ensures InNet(Drop(net, i) + sent, tag)
         == InNet(net, tag) - Once(Is(net[i], tag)) + (if sent == [] then 0 else Once(Is(sent[0], tag)))
  {
    hide InNet, Is;
    InNetDrop(net, i, tag);
    InNetConcat(Drop(net, i), sent, tag);
    if sent != [] {
      InNetOne(sent[0], tag);
      assert sent == [sent[0]];
    } else {
      InNetOne(net[i], tag);
    }
  }

  lemma {:induction false} NotConnected(w: World, w': World, u: nat)
    requires Balanced(w, u) && w'.tally == w.tally && w'.gates == w.gates
    requires InNet(w'.net, Wills(u)) == InNet(w.net, Wills(u)) && InNet(w'.net, Reports(u)) == InNet(w.net, Reports(u))
    requires IsConnected(w'.users, u) ==> IsConnected(w.users, u)
    ensures Balanced(w', u)
  {
    hide InNet, Total;
  }

  lemma {:induction false} ReplyEffect(reg: Reg, users: map<nat, nat>, m: Packet, reading: Reading, u: nat)
    requires m.WillLoginRes?
    ensures var h := WillLoginResNext(reg, users, m.result, m.ticket, m.user, m.key, reading);
      && (IsConnected(h.users, u) ==> IsConnected(users, u))
      && |h.sent| <= 1
      && (h.sent == [] <==> h.fact.Unreadable? || h.fact.LoginGone? || h.fact.UserGone?)
      && (h.sent != [] ==> h.sent[0].Verify?)
  {
    hide HasServer;
  }

  lemma {:induction false} ReplyDelivered(w: World, i: nat, at: nat, reading: Reading, u: nat, r: nat)
    requires i < |w.net| && w.net[i].WillLoginRes?
    requires Balanced(w, u) && Settled(w, r)
    ensures Balanced(DeliverNext(w, i, at, reading), u) && Settled(DeliverNext(w, i, at, reading), r)
  {
    hide InNet, Total, Plus, WillLoginResNext, Balanced, Drop;
    var m := w.net[i];
    var h := WillLoginResNext(w.reg, w.users, m.result, m.ticket, m.user, m.key, reading);
    ReplyEffect(w.reg, w.users, m, reading, u);
    var w' := DeliverNext(w, i, at, reading);
    forall tag | tag in [Wills(u), Reports(u), Of(r)]
      ensures InNet(w'.net, tag) == InNet(w.net, tag) - Once(Is(m, tag))
    {
      Exchanged(w.net, i, h.sent, tag);
      InNetDrop(w.net, i, tag);
    }
    NotConnected(w, w', u);
  }

  lemma {:induction false} ReportDelivered(w: World, i: nat, at: nat, reading: Reading, u: nat, r: nat)
    requires i < |w.net| && w.net[i].Report?
    requires Balanced(w, u) && Settled(w, r)
    ensures Balanced(DeliverNext(w, i, at, reading), u) && Settled(DeliverNext(w, i, at, reading), r)
  {
    hide InNet, Total, Plus, HasServer;
    var m := w.net[i];
    var h := ReportNext(w.reg, w.users, at, m.client, m.user);
    forall tag | tag in [Wills(u), Reports(u), Of(r)]
      ensures InNet(Drop(w.net, i) + h.sent, tag) == InNet(w.net, tag) - Once(Is(m, tag))
    {
      Exchanged(w.net, i, h.sent, tag);
    }
  }

  lemma {:induction false} OtherDelivered(w: World, i: nat, at: nat, reading: Reading, u: nat, r: nat)
    requires i < |w.net| && (w.net[i].Verify? || w.net[i].Offline? || (w.net[i].Confirm? && at in w.gates))
    requires Balanced(w, u) && Settled(w, r)
    ensures Balanced(DeliverNext(w, i, at, reading), u) && Settled(DeliverNext(w, i, at, reading), r)
  {
    hide InNet, Total, G.Next;
    var m := w.net[i];
    InNetDrop(w.net, i, Wills(u));
    InNetDrop(w.net, i, Reports(u));
    InNetDrop(w.net, i, Of(r));
    if m.Confirm? {
      var s := G.Confirm(m.result, m.client);
      GateTallies(w.gates[at], s, u);
      InNetOne(m, Reports(u));
      TotalUpdate(w.gates, at, G.Next(w.gates[at], s), G.Handled(u));
      TotalUpdate(w.gates, at, G.Next(w.gates[at], s), G.Fact.Reported(u));
    }
  }

  lemma {:induction false} LoseTallied(f: multiset<Fact>, user: nat, report: bool, u: nat,
                                      wills: nat, handled: nat, reports: nat, reported: nat, connected: bool)
    requires Tallied(f, u, wills, handled, reports, reported, connected)
    requires user == u ==> if report then reports > 0 else wills > 0
    ensures var n := Once(user == u);
      if report then Tallied(Plus(f, LostReport(user)), u, wills, handled, reports - n, reported, connected)
      else Tallied(Plus(f, LostWill(user)), u, wills - n, handled, reports, reported, connected)
  {
    hide Plus;
  }

  lemma {:induction false} LoseBalanced(w: World, i: nat, u: nat)
    requires i < |w.net| && Balanced(w, u)
    ensures Balanced(LoseNext(w, i), u)
  {
    hide InNet, Total, Plus, Drop, Tallied;
    InNetDrop(w.net, i, Wills(u));
    InNetDrop(w.net, i, Reports(u));
    var m := w.net[i];
    if m.WillLogin? || m.Report? {
      LoseTallied(w.tally, m.user, m.Report?, u, InNet(w.net, Wills(u)), Total(w.gates, G.Handled(u)),
        InNet(w.net, Reports(u)), Total(w.gates, G.Fact.Reported(u)), IsConnected(w.users, u));
    }
  }

  lemma {:induction false} LoseSettled(w: World, i: nat, r: nat)
    requires i < |w.net| && Settled(w, r)
    ensures Settled(LoseNext(w, i), r)
  {
    hide InNet, Plus, Drop;
    InNetDrop(w.net, i, Of(r));
  }

  lemma {:induction false} DeliverTraceable(w: World, i: nat, at: nat, reading: Reading)
    requires Traceable(w)
    ensures Traceable(DeliverNext(w, i, at, reading))
  {
    hide Traceable, Plus, G.Next, HasServer, WillLoginNext, Drop;
    if i < |w.net| {
      var m := w.net[i];
      var w' := w.(net := Drop(w.net, i));
      DropTraceable(w, i);
      var n := DeliverNext(w, i, at, reading);
      var sent :=
        if m.WillLogin? && at in w.gates
        then [WillLoginNext(w.gates[at].gate, m.ticket, m.user, w.gates[at].clock).1]
        else if m.WillLoginRes? then WillLoginResNext(w.reg, w.users, m.result, m.ticket, m.user, m.key, reading).sent
        else if m.Report? then ReportNext(w.reg, w.users, at, m.client, m.user).sent
        else [];
      if m.WillLogin? && at in w.gates {
        ReplyOf(w.gates[at].gate, m.ticket, m.user, w.gates[at].clock);
      }
      AppendTraceable(w', sent);
      if n.net == w.net {
        SameTraceable(w, n);
      } else if n.net == w'.net {
        SameTraceable(w', n);
      } else {
        SameTraceable(w'.(net := w'.net + sent), n);
      }
    }
  }

  lemma {:induction false} LoseTraceable(w: World, i: nat)
    requires Traceable(w)
    ensures Traceable(LoseNext(w, i))
  {
    hide Traceable, Plus, Drop;
    if i < |w.net| {
      DropTraceable(w, i);
      SameTraceable(w.(net := Drop(w.net, i)), LoseNext(w, i));
    } else {
      SameTraceable(w, LoseNext(w, i));
    }
  }

  // ---- Every step, every run ------------------------------------------------------------

  lemma {:induction false} StepBalances(w: World, step: Step, u: nat, r: nat)
    requires Balanced(w, u) && Settled(w, r)
    ensures Balanced(Next(w, step), u) && Settled(Next(w, step), r)
  {
    hide InNet, Total, RequestNext, LoseNext, AtGateNext, DeliverNext;
    match step
    case Request(login, client, user, packet) =>
      RequestBalanced(w, login, client, user, packet, u);
      RequestSettled(w, login, client, user, packet, r);
    case Deliver(i, at, reading) => DeliverBalances(w, i, at, reading, u, r);
    case Lose(i) =>
      if i < |w.net| {
        LoseBalanced(w, i, u);
        LoseSettled(w, i, r);
      } else {
        LoseNothing(w, i, 0, Whole);
      }
    case AtGate(p, s) =>
      AtGateBalanced(w, p, s, u);
      AtGateSettled(w, p, s, r);
    case StartGate(p) => StartGateBalanced(w, p, u);
    case _ =>
  }

  lemma {:induction false} LoseNothing(w: World, i: nat, at: nat, reading: Reading)
    requires i >= |w.net|
    ensures LoseNext(w, i) == w && DeliverNext(w, i, at, reading) == w
  {
  }

  lemma {:induction false} DeliverBalances(w: World, i: nat, at: nat, reading: Reading, u: nat, r: nat)
    requires Balanced(w, u) && Settled(w, r)
    ensures Balanced(DeliverNext(w, i, at, reading), u) && Settled(DeliverNext(w, i, at, reading), r)
  {
    hide Balanced, Settled;
    if i >= |w.net| || ((w.net[i].WillLogin? || w.net[i].Confirm?) && at !in w.gates) {
    } else if w.net[i].WillLogin? {
      WillLoginDelivered(w, i, at, reading, u, r);
    } else if w.net[i].WillLoginRes? {
      ReplyDelivered(w, i, at, reading, u, r);
    } else if w.net[i].Report? {
      ReportDelivered(w, i, at, reading, u, r);
    } else {
      OtherDelivered(w, i, at, reading, u, r);
    }
  }

  lemma {:induction false} StepTraceable(w: World, step: Step)
    requires Traceable(w)
    ensures Traceable(Next(w, step))
  {
    hide Traceable, RequestNext, LoseNext, AtGateNext, DeliverNext;
    match step
    case Request(login, client, user, packet) => RequestTraceable(w, login, client, user, packet);
    case Deliver(i, at, reading) => DeliverTraceable(w, i, at, reading);
    case Lose(i) => LoseTraceable(w, i);
    case AtGate(p, s) => AtGateTraceable(w, p, s);
    case _ => SameTraceable(w, Next(w, step));
  }

  // A gate only ever takes steps of its own.
  lemma {:induction false} StepGates(w: World, step: Step, p: nat)
    requires forall q <- w.gates :: G.Inv(w.gates[q])
    requires p in Next(w, step).gates
    ensures G.Inv(Next(w, step).gates[p])
  {
    hide G.Inv, G.Next, Sends, WillLoginNext, Plus, OnlineNext, WillLoginResNext, ReportNext, Drop;
    G.StartKept();
    if p in w.gates {
      match step
      case AtGate(_, s) => G.NextKeeps(w.gates[p], s);
      case Deliver(i, _, _) =>
        if i < |w.net| && w.net[i].WillLogin? {
          G.NextKeeps(w.gates[p], G.WillLogin(w.net[i].ticket, w.net[i].user));
        } else if i < |w.net| && w.net[i].Confirm? {
          G.NextKeeps(w.gates[p], G.Confirm(w.net[i].result, w.net[i].client));
        }
      case _ =>
    }
  }

  lemma {:induction false} NextKeeps(w: World, step: Step)
    requires Inv(w)
    ensures Inv(Next(w, step))
  {
    hide Balanced, Settled, Traceable, G.Inv, Next;
    var w' := Next(w, step);
    forall u: nat
      ensures Balanced(w', u)
    {
      StepBalances(w, step, u, 0);
    }
    forall r: nat
      ensures Settled(w', r)
    {
      StepBalances(w, step, 0, r);
    }
    StepTraceable(w, step);
    forall p <- w'.gates
      ensures G.Inv(w'.gates[p])
    {
      StepGates(w, step, p);
    }
  }

  lemma {:induction false} RunKeeps(w: World, steps: seq<Step>)
    requires Inv(w)
    ensures Inv(Run(w, steps))
    decreases |steps|
  {
    hide Inv, Next;
    if steps != [] {
      NextKeeps(w, steps[0]);
      RunKeeps(Next(w, steps[0]), steps[1..]);
    }
  }

  lemma {:induction false} Reached(reg: Reg, steps: seq<Step>)
    ensures Inv(Run(Start(reg), steps))
  {
    hide Run;
    RunKeeps(Start(reg), steps);
  }

  // ---- The laws -------------------------------------------------------------------------

  // Over every run, for every user: the master marks a user connected at most
  // as often as gates report it, which is as often as a right key was presented,
  // which happens at most once for each record, for each announcement a gate
  // handled, for each announcement sent, and for each acceptance.
  lemma {:induction false} AdmissionLaw(reg: Reg, steps: seq<Step>, u: nat)
    ensures var w := Run(Start(reg), steps);
      && w.tally[Online(u)] <= Total(w.gates, G.Fact.Reported(u))
      && Total(w.gates, G.Fact.Reported(u)) == Total(w.gates, G.KeyRight(u))
      && Total(w.gates, G.KeyRight(u)) <= Total(w.gates, G.Inserted(u))
      && Total(w.gates, G.Inserted(u)) <= Total(w.gates, G.Handled(u))
      && Total(w.gates, G.Handled(u)) <= w.tally[Sent(u)]
      && w.tally[Sent(u)] <= w.tally[Accepted(u)]
  {
    hide Run, Total, InNet;
    Reached(reg, steps);
    var w := Run(Start(reg), steps);
    assert Balanced(w, u);
    forall p <- w.gates
      ensures G.Balanced(w.gates[p], u)
    {
    }
    TotalAtMost(w.gates, G.Fact.Reported(u), G.KeyRight(u));
    TotalAtMost(w.gates, G.KeyRight(u), G.Fact.Reported(u));
    TotalAtMost(w.gates, G.KeyRight(u), G.Inserted(u));
    TotalAtMost(w.gates, G.Inserted(u), G.Handled(u));
  }

  // A user the master lists as connected has been let in by some gate.
  lemma {:induction false} ConnectedWasLetIn(reg: Reg, steps: seq<Step>, u: nat)
    requires var w := Run(Start(reg), steps); u in w.users && w.users[u] == CONNECTED
    ensures exists p <- Run(Start(reg), steps).gates :: u in Run(Start(reg), steps).gates[p].gate.bound
  {
    hide Run, Total, InNet;
    Reached(reg, steps);
    var w := Run(Start(reg), steps);
    AdmissionLaw(reg, steps, u);
    assert Balanced(w, u);
    SomeGate(w.gates, G.KeyRight(u));
    var p :| p in w.gates && w.gates[p].tally[G.KeyRight(u)] > 0;
    assert G.Balanced(w.gates[p], u);
  }

  // Every request from a login server is in exactly one place: on its way to
  // the gate or back, answered, dropped because the login server or the user
  // had gone, or lost. So it is answered at most once.
  lemma {:induction false} VerdictsConserved(reg: Reg, steps: seq<Step>, r: nat)
    requires r < |Run(Start(reg), steps).asked|
    ensures var w := Run(Start(reg), steps);
      && InNet(w.net, Of(r)) + w.answered[r] + w.dropped[r] + w.lost[r] == 1
      && forall m <- w.net :: m.Verify? && m.ticket.request == r ==>
           w.asked[r] == Asked(m.ticket.login, m.ticket.client, m.user)
  {
    hide Run, Balanced, InNet;
    Reached(reg, steps);
    assert Settled(Run(Start(reg), steps), r);
  }

  // ---- Why a user is in the table ----------------------------------------------------------

  // A request for the user is on its way to a gate or back, or was lost.
  ghost predicate Waits(w: World, r: nat, u: nat) {
    r < |w.asked| && w.asked[r].user == u && InNet(w.net, Of(r)) + w.lost[r] > 0
  }

  ghost predicate Answered(w: World, r: nat, u: nat) {
    r < |w.asked| && w.asked[r].user == u && w.answered[r] > 0
  }

  // A user is in the table for a reason: no gate was found for it; the gate's
  // answer to a request for it has not been taken and may be lost; such a request
  // was answered; or a gate reported it.
  ghost predicate Explained(w: World, u: nat) {
    u in w.users ==>
      var state := w.users[u];
      && CREATED <= state <= CONNECTED
      && (state == CREATED ==> w.tally[Gateless(u)] > 0)
      && (state == WAITING_RESPONSE ==> exists r: nat :: Waits(w, r, u))
      && (state == WAITING_LOGIN ==> exists r: nat :: Answered(w, r, u))
      && (state == CONNECTED ==> w.tally[Online(u)] > 0)
  }

  predicate IsWaiting(users: map<nat, nat>, u: nat) {
    u in users && users[u] == WAITING_RESPONSE
  }

  // The step takes a gate's answer to request r.
  predicate Settles(w: World, step: Step, r: nat) {
    && step.Deliver? && step.i < |w.net| && w.net[step.i].WillLoginRes?
    && w.net[step.i].ticket.request == r && !step.reading.Unread?
  }

  // Nothing else settles a request that was made before.
  lemma {:induction false} OnlyAnswersSettle(w: World, step: Step, r: nat)
    requires r < |w.asked|
    ensures var w' := Next(w, step);
      && |w'.asked| >= |w.asked| && w'.asked[r] == w.asked[r]
      && w'.answered[r] >= w.answered[r]
      && (w'.answered[r] + w'.dropped[r] == w.answered[r] + w.dropped[r] || Settles(w, step, r))
  {
    hide InNet, Plus, G.Next, OnlineNext, IsLogin, HasServer, Sends, DeliverNext, WillLoginNext;
    if step.Deliver? {
      DeliverySettles(w, step.i, step.at, step.reading, r);
    }
  }

  lemma {:induction false} DeliverySettles(w: World, i: nat, at: nat, reading: Reading, r: nat)
    requires r < |w.asked|
    ensures var w' := DeliverNext(w, i, at, reading);
      && w'.asked == w.asked
      && w'.answered[r] >= w.answered[r]
      && (w'.answered[r] + w'.dropped[r] == w.answered[r] + w.dropped[r] || Settles(w, Deliver(i, at, reading), r))
  {
    hide InNet, Plus, G.Next, HasServer, Drop, ReplyNext, ReportNext, WillLoginNext;
    if i < |w.net| && w.net[i].WillLoginRes? {
      AnswerSettles(w.(net := Drop(w.net, i)), w.net[i], reading, r);
    }
  }

  lemma {:induction false} AnswerSettles(w: World, m: Packet, reading: Reading, r: nat)
    requires m.WillLoginRes?
    ensures var w' := ReplyNext(w, m, reading);
      && w'.asked == w.asked
      && w'.answered[r] >= w.answered[r]
      && (m.ticket.request != r || reading.Unread? ==> w'.answered[r] + w'.dropped[r] == w.answered[r] + w.dropped[r])
  {
    hide Plus, HasServer;
  }

  // The user of an answer that is taken no longer waits for one.
  lemma {:induction false} AnswerEndsWaiting(reg: Reg, users: map<nat, nat>, m: Packet, reading: Reading)
    requires m.WillLoginRes? && !reading.Unread?
    ensures !IsWaiting(WillLoginResNext(reg, users, m.result, m.ticket, m.user, m.key, reading).users, m.user)
  {
    hide HasServer;
  }

  lemma {:induction false} AnswerUsers(w: World, i: nat, at: nat, reading: Reading)
    requires i < |w.net| && w.net[i].WillLoginRes?
    ensures var m := w.net[i];
      DeliverNext(w, i, at, reading).users
      == WillLoginResNext(w.reg, w.users, m.result, m.ticket, m.user, m.key, reading).users
  {
    hide Plus, Drop, HasServer;
  }

  lemma {:induction false} SettledUser(w: World, step: Step, r: nat)
    requires Settles(w, step, r) && Traceable(w)
    ensures r < |w.asked| && !IsWaiting(Next(w, step).users, w.asked[r].user)
  {
    hide DeliverNext, IsWaiting, WillLoginResNext;
    var m := w.net[step.i];
    assert Answers(m, w.asked);
    AnswerUsers(w, step.i, step.at, step.reading);
    AnswerEndsWaiting(w.reg, w.users, m, step.reading);
  }

  // A user's state after a step is its old one, or one of these.
  predicate FromRequest(w: World, step: Step, u: nat, state: nat) {
    step.Request? && step.user == u && (state == CREATED || state == WAITING_RESPONSE)
  }

  predicate FromPacket(w: World, step: Step, u: nat, state: nat) {
    && step.Deliver? && step.i < |w.net|
    && var m := w.net[step.i];
    || (m.WillLoginRes? && m.user == u && state == WAITING_LOGIN)
    || (m.Report? && m.user == u && state == CONNECTED)
  }

  // At most this user's entry is different.
  predicate Differs(users: map<nat, nat>, users': map<nat, nat>, user: nat, state: nat) {
    users' == users || users' == users - {user} || users' == users[user := state]
  }

  lemma {:induction false} PacketStates(w: World, i: nat, at: nat, reading: Reading)
    requires i < |w.net|
    ensures var users', m := DeliverNext(w, i, at, reading).users, w.net[i];
      && (m.WillLoginRes? ==> Differs(w.users, users', m.user, WAITING_LOGIN))
      && (m.Report? ==> Differs(w.users, users', m.user, CONNECTED))
      && (m.Offline? ==> users' == w.users || users' == w.users - {m.user})
      && (m.WillLogin? || m.Verify? || m.Confirm? ==> users' == w.users)
  {
    hide Plus, G.Next, HasServer, Drop, WillLoginNext;
  }

  // Where the states of the table come from.
  lemma {:induction false} StepStates(w: World, step: Step, u: nat)
    ensures var users' := Next(w, step).users; u in users' ==>
      || (u in w.users && users'[u] == w.users[u])
      || FromRequest(w, step, u, users'[u])
      || FromPacket(w, step, u, users'[u])
  {
    hide DeliverNext, Plus, G.Next, IsLogin, FirstGate, HasServer, Drop, Sends;
    if step.Deliver? {
      if step.i < |w.net| {
        PacketStates(w, step.i, step.at, step.reading);
      } else {
        LoseNothing(w, step.i, step.at, step.reading);
      }
    }
  }

  // A request is under way, or lost for want of a packet, as soon as its user
  // waits.
  lemma {:induction false} RequestExplains(w: World, step: Step)
    requires step.Request?
    requires var w' := Next(w, step); step.user in w'.users
    requires step.user !in w.users || Next(w, step).users[step.user] != w.users[step.user]
    ensures var w' := Next(w, step); var u, r := step.user, |w.asked|;
      && |w'.asked| == r + 1 && w'.asked[r].user == u
      && (w'.users[u] == CREATED ==> w'.tally[Gateless(u)] > 0)
      && (w'.users[u] == WAITING_RESPONSE ==> w'.answered[r] == w.answered[r] && w'.dropped == w.dropped)
  {
    hide InNet, Plus, IsLogin, FirstGate;
  }

  lemma {:induction false} TakenExplains(w: World, step: Step, u: nat)
    requires step.Deliver? && step.i < |w.net| && Traceable(w)
    requires u in Next(w, step).users
    requires u !in w.users || Next(w, step).users[u] != w.users[u]
    ensures var w' := Next(w, step);
      && (w'.users[u] == WAITING_LOGIN ==> exists r: nat :: Answered(w', r, u))
      && (w'.users[u] == CONNECTED ==> w'.tally[Online(u)] > 0)
  {
    hide InNet, Plus, HasServer, Drop, WillLoginNext, G.Next;
    var w', m := Next(w, step), w.net[step.i];
    if w'.users[u] == WAITING_LOGIN && m.WillLoginRes? {
      assert Answers(m, w.asked);
      assert Answered(w', m.ticket.request, u);
    }
  }

  lemma {:induction false} TalliesGrow(w: World, step: Step, f: Fact)
    ensures Next(w, step).tally[f] >= w.tally[f]
  {
    hide InNet, Plus, G.Next, OnlineNext, IsLogin, HasServer, Drop, Sends, WillLoginNext, WillLoginResNext;
  }

  lemma {:induction false} StaysWaiting(w: World, step: Step, u: nat, r: nat)
    requires Waits(w, r, u) && Settled(w, r) && Settled(Next(w, step), r) && Traceable(w)
    requires IsWaiting(Next(w, step).users, u)
    ensures Waits(Next(w, step), r, u)
  {
    hide Next, InNet, Traceable;
    OnlyAnswersSettle(w, step, r);
    if Settles(w, step, r) {
      SettledUser(w, step, r);
    }
  }

  lemma {:induction false} StepExplains(w: World, step: Step, u: nat)
    requires Inv(w) && Explained(w, u)
    ensures Explained(Next(w, step), u)
  {
    var w' := Next(w, step);
    NextKeeps(w, step);
    StepStates(w, step, u);
    hide Next, InNet, Traceable, Balanced, G.Inv;
    if u in w'.users {
      TalliesGrow(w, step, Gateless(u));
      TalliesGrow(w, step, Online(u));
      if u in w.users && w'.users[u] == w.users[u] {
        if w.users[u] == WAITING_RESPONSE {
          var r: nat :| Waits(w, r, u);
          assert Settled(w, r) && Settled(w', r);
          StaysWaiting(w, step, u, r);
        } else if w.users[u] == WAITING_LOGIN {
          var r: nat :| Answered(w, r, u);
          OnlyAnswersSettle(w, step, r);
          assert Answered(w', r, u);
        }
      } else if step.Request? {
        RequestExplains(w, step);
        assert Settled(w, |w.asked|) && Settled(w', |w.asked|);
        if w'.users[u] == WAITING_RESPONSE {
          assert Waits(w', |w.asked|, u);
        }
      } else {
        TakenExplains(w, step, u);
      }
    }
  }

  lemma {:induction false} RunExplains(w: World, steps: seq<Step>, u: nat)
    requires Inv(w) && Explained(w, u)
    ensures Explained(Run(w, steps), u)
    decreases |steps|
  {
    hide Inv, Next, Explained;
    if steps != [] {
      NextKeeps(w, steps[0]);
      StepExplains(w, steps[0], u);
      RunExplains(Next(w, steps[0]), steps[1..], u);
    }
  }

  // Over every run and for every user: it is in the table only for a reason. In
  // particular it waits for a gate's answer only while a request for it is on its
  // way or was lost, and never because an answer was taken.
  lemma {:induction false} EveryUserExplained(reg: Reg, steps: seq<Step>, u: nat)
    ensures Explained(Run(Start(reg), steps), u)
  {
    Reached(reg, []);
    RunNothing(reg);
    RunExplains(Start(reg), steps, u);
  }

  // ---- The keys in the verdicts -----------------------------------------------------------

  // Some gate has issued the key.
  ghost predicate Issued(gates: map<nat, G.Trace>, key: string) {
    exists p, i: nat :: p in gates && 1 <= i <= gates[p].issued && key == Key(i)
  }

  ghost predicate Genuine(m: Packet, gates: map<nat, G.Trace>) {
    (m.WillLoginRes? || m.Verify?) && m.result == 0 ==> Issued(gates, m.key)
  }

  ghost predicate AllGenuine(net: seq<Packet>, gates: map<nat, G.Trace>) {
    forall i | 0 <= i < |net| :: Genuine(net[i], gates)
  }

  ghost predicate Grown(gates: map<nat, G.Trace>, gates': map<nat, G.Trace>) {
    forall p <- gates :: p in gates' && gates'[p].issued >= gates[p].issued
  }

  lemma {:induction false} GenuineGrows(net: seq<Packet>, gates: map<nat, G.Trace>, gates': map<nat, G.Trace>)
    requires AllGenuine(net, gates) && Grown(gates, gates')
    ensures AllGenuine(net, gates')
  {
    hide Key;
    forall i | 0 <= i < |net|
      ensures Genuine(net[i], gates')
    {
      assert Genuine(net[i], gates);
      if (net[i].WillLoginRes? || net[i].Verify?) && net[i].result == 0 {
        var p, k: nat :| p in gates && 1 <= k <= gates[p].issued && net[i].key == Key(k);
        assert p in gates' && 1 <= k <= gates'[p].issued;
      }
    }
  }

  lemma {:induction false} GenuineDrop(net: seq<Packet>, i: nat, gates: map<nat, G.Trace>)
    requires i < |net| && AllGenuine(net, gates)
    ensures AllGenuine(Drop(net, i), gates) && Genuine(net[i], gates)
  {
    hide Genuine;
    forall j | 0 <= j < |Drop(net, i)|
      ensures Genuine(Drop(net, i)[j], gates)
    {
      assert Drop(net, i)[j] == net[if j < i then j else j + 1];
    }
  }

  lemma {:induction false} GenuineAppend(net: seq<Packet>, sent: seq<Packet>, gates: map<nat, G.Trace>)
    requires AllGenuine(net, gates) && forall m <- sent :: Genuine(m, gates)
    ensures AllGenuine(net + sent, gates)
  {
    hide Genuine;
  }

  lemma {:induction false} GateGrows(t: G.Trace, s: G.Step)
    ensures G.Next(t, s).issued >= t.issued
  {
    hide Plus, G.Timeout, WillLoginNext, LoginKeyNext;
    G.TimeoutIsExpire(t, EXPIRE_BATCH);
  }

  // The key a gate hands out is the next one it issues.
  lemma {:induction false} ReplyGenuine(gates: map<nat, G.Trace>, p: nat, ticket: Ticket, user: nat)
    requires p in gates && G.Inv(gates[p])
    ensures var t := gates[p]; var t' := G.Next(t, G.WillLogin(ticket, user));
      Genuine(WillLoginNext(t.gate, ticket, user, t.clock).1, gates[p := t'])
  {
    hide Decimal, Plus, G.Balanced, G.Backed, G.Sorted;
    var t := gates[p];
    var t' := G.Next(t, G.WillLogin(ticket, user));
    var reply := WillLoginNext(t.gate, ticket, user, t.clock).1;
    if user !in t.gate.bound {
      assert (t.issued % KEY_COUNT + 1) % KEY_COUNT == (t.issued + 1) % KEY_COUNT;
      assert reply.key == Key(t.issued + 1);
      assert p in gates[p := t'] && 1 <= t.issued + 1 <= gates[p := t'][p].issued;
    }
  }

  lemma {:induction false} DeliverGenuine(w: World, i: nat, at: nat, reading: Reading)
    requires AllGenuine(w.net, w.gates) && forall p <- w.gates :: G.Inv(w.gates[p])
    ensures var w' := DeliverNext(w, i, at, reading); AllGenuine(w'.net, w'.gates)
  {
    hide AllGenuine, Issued, G.Inv, G.Next, WillLoginNext, Plus, HasServer, Drop, Grown, Key;
    if i < |w.net| {
      var m := w.net[i];
      var rest := Drop(w.net, i);
      GenuineDrop(w.net, i, w.gates);
      if m.WillLogin? && at in w.gates {
        var t := w.gates[at];
        var gates' := w.gates[at := G.Next(t, G.WillLogin(m.ticket, m.user))];
        GrownAt(w.gates, at, G.WillLogin(m.ticket, m.user));
        GenuineGrows(rest, w.gates, gates');
        ReplyGenuine(w.gates, at, m.ticket, m.user);
        GenuineAppend(rest, [WillLoginNext(t.gate, m.ticket, m.user, t.clock).1], gates');
      } else if m.WillLoginRes? {
        GenuineAppend(rest, WillLoginResNext(w.reg, w.users, m.result, m.ticket, m.user, m.key, reading).sent, w.gates);
      } else if m.Report? {
        GenuineAppend(rest, ReportNext(w.reg, w.users, at, m.client, m.user).sent, w.gates);
      } else if m.Confirm? && at in w.gates {
        GrownAt(w.gates, at, G.Confirm(m.result, m.client));
        GenuineGrows(rest, w.gates, w.gates[at := G.Next(w.gates[at], G.Confirm(m.result, m.client))]);
      }
    }
  }

  lemma {:induction false} GrownAt(gates: map<nat, G.Trace>, p: nat, s: G.Step)
    requires p in gates
    ensures Grown(gates, gates[p := G.Next(gates[p], s)])
  {
    hide G.Next;
    GateGrows(gates[p], s);
  }

  lemma {:induction false} StepGenuine(w: World, step: Step)
    requires AllGenuine(w.net, w.gates) && forall p <- w.gates :: G.Inv(w.gates[p])
    ensures var w' := Next(w, step); AllGenuine(w'.net, w'.gates)
  {
    hide AllGenuine, Issued, G.Inv, G.Next, Plus, IsLogin, OnlineNext, Drop, Grown, DeliverNext, Expire, LoginKeyNext;
    match step
    case Request(login, client, user, packet) =>
      RequestGenuine(w, login, client, user, packet);
    case Deliver(i, at, reading) => DeliverGenuine(w, i, at, reading);
    case Lose(i) =>
      if i < |w.net| {
        GenuineDrop(w.net, i, w.gates);
      }
    case AtGate(p, s) =>
      if p in w.gates && !s.WillLogin? && !s.Confirm? {
        OnlyOfflines(Expire(w.gates[p].gate, w.gates[p].clock, EXPIRE_BATCH).1);
        GenuineAppend(w.net, Sends(w.gates[p], s), w.gates);
        GrownAt(w.gates, p, s);
        GenuineGrows(w.net + Sends(w.gates[p], s), w.gates, w.gates[p := G.Next(w.gates[p], s)]);
      }
    case StartGate(p) =>
      if p !in w.gates {
        NewGateGrows(w.gates, p);
        GenuineGrows(w.net, w.gates, w.gates[p := G.Start()]);
      }
    case _ =>
  }

  lemma {:induction false} NewGateGrows(gates: map<nat, G.Trace>, p: nat)
    requires p !in gates
    ensures Grown(gates, gates[p := G.Start()])
  {
  }

  lemma {:induction false} RequestGenuine(w: World, login: nat, client: nat, user: nat, packet: bool)
    requires AllGenuine(w.net, w.gates)
    ensures var w' := RequestNext(w, login, client, user, packet); AllGenuine(w'.net, w'.gates)
  {
    hide AllGenuine, Issued, Plus, IsLogin, FirstGate;
    var h := OnlineNext(w.reg, w.users, Ticket(login, client, |w.asked|), user, packet);
    assert forall m <- h.sent :: Genuine(m, w.gates);
    GenuineAppend(w.net, h.sent, w.gates);
  }

  lemma {:induction false} RunGenuine(w: World, steps: seq<Step>)
    requires Inv(w) && AllGenuine(w.net, w.gates)
    ensures var w' := Run(w, steps); AllGenuine(w'.net, w'.gates)
    decreases |steps|
  {
    hide AllGenuine, Next, Balanced, Settled, Traceable, G.Inv;
    if steps != [] {
      NextKeeps(w, steps[0]);
      StepGenuine(w, steps[0]);
      RunGenuine(Next(w, steps[0]), steps[1..]);
    }
  }

  // Over every run, a verdict of success carries a key that some gate has
  // issued.
  lemma {:induction false} VerdictsCarryIssuedKeys(reg: Reg, steps: seq<Step>, m: Packet)
    requires m in Run(Start(reg), steps).net && m.Verify? && m.result == 0
    ensures Issued(Run(Start(reg), steps).gates, m.key)
  {
    hide Run, Balanced, Settled, Issued;
    Reached(reg, []);
    RunNothing(reg);
    RunGenuine(Start(reg), steps);
    var w := Run(Start(reg), steps);
    var i :| 0 <= i < |w.net| && w.net[i] == m;
    assert Genuine(w.net[i], w.gates);
  }

  lemma {:induction false} RunNothing(reg: Reg)
    ensures Run(Start(reg), []) == Start(reg)
  {
  }

  // ---- Answers that are always cut short ---------------------------------------------------

  predicate Refuses(m: Packet) {
    m.Verify? ==> m.result != 0
  }

  ghost predicate AllRefuse(net: seq<Packet>) {
    forall i :: 0 <= i < |net| ==> Refuses(net[i])
  }

  predicate NobodyWaits(users: map<nat, nat>) {
    forall u <- users :: users[u] != WAITING_LOGIN
  }

  // No verdict of success is under way, and nobody waits for its login at the
  // gate.
  ghost predicate NobodyLetIn(w: World) {
    AllRefuse(w.net) && NobodyWaits(w.users)
  }

  lemma {:induction false} RefuseDrop(net: seq<Packet>, i: nat)
    requires AllRefuse(net) && i < |net|
    ensures AllRefuse(Drop(net, i))
  {
    hide Refuses;
    assert forall j :: 0 <= j < |Drop(net, i)| ==> Drop(net, i)[j] == net[if j < i then j else j + 1];
  }

  lemma {:induction false} RefuseAppend(net: seq<Packet>, sent: seq<Packet>)
    requires AllRefuse(net) && forall m <- sent :: Refuses(m)
    ensures AllRefuse(net + sent)
  {
    hide Refuses;
  }

  lemma {:induction false} CutAnswer(reg: Reg, users: map<nat, nat>, m: Packet, reading: Reading)
    requires m.WillLoginRes? && !reading.Whole? && NobodyWaits(users)
    ensures var h := WillLoginResNext(reg, users, m.result, m.ticket, m.user, m.key, reading);
      NobodyWaits(h.users) && forall x <- h.sent :: Refuses(x)
  {
    hide HasServer;
  }

  lemma {:induction false} CutDelivery(w: World, i: nat, at: nat, reading: Reading)
    requires NobodyLetIn(w) && !reading.Whole?
    ensures NobodyLetIn(DeliverNext(w, i, at, reading))
  {
    hide Plus, G.Next, HasServer, AllRefuse, NobodyWaits, Drop, WillLoginNext, WillLoginResNext;
    if i < |w.net| {
      var m := w.net[i];
      var rest := Drop(w.net, i);
      RefuseDrop(w.net, i);
      if m.WillLogin? && at in w.gates {
        ReplyOf(w.gates[at].gate, m.ticket, m.user, w.gates[at].clock);
        RefuseAppend(rest, [WillLoginNext(w.gates[at].gate, m.ticket, m.user, w.gates[at].clock).1]);
      } else if m.WillLoginRes? {
        CutAnswer(w.reg, w.users, m, reading);
        RefuseAppend(rest, WillLoginResNext(w.reg, w.users, m.result, m.ticket, m.user, m.key, reading).sent);
      } else if m.Report? {
        RefuseAppend(rest, ReportNext(w.reg, w.users, at, m.client, m.user).sent);
        NobodyWaitsMore(w.users, m.user, CONNECTED);
      } else if m.Offline? {
        NobodyWaitsMore(w.users, m.user, CONNECTED);
      }
    }
  }

  lemma {:induction false} NobodyWaitsMore(users: map<nat, nat>, u: nat, state: nat)
    requires NobodyWaits(users) && state != WAITING_LOGIN
    ensures NobodyWaits(users[u := state]) && NobodyWaits(users - {u})
  {
  }

  lemma {:induction false} CutStep(w: World, step: Step)
    requires NobodyLetIn(w) && (step.Deliver? ==> !step.reading.Whole?)
    ensures NobodyLetIn(Next(w, step))
  {
    hide DeliverNext, Plus, G.Next, IsLogin, FirstGate, Expire, LoginKeyNext, AllRefuse, NobodyWaits, Drop, Offlines;
    match step
    case Request(login, client, user, packet) =>
      RefuseAppend(w.net, OnlineNext(w.reg, w.users, Ticket(login, client, |w.asked|), user, packet).sent);
      NobodyWaitsMore(w.users, user, CREATED);
      NobodyWaitsMore(w.users, user, WAITING_RESPONSE);
    case Withdraw(login, user) => NobodyWaitsMore(w.users, user, CREATED);
    case Deliver(i, at, reading) => CutDelivery(w, i, at, reading);
    case Lose(i) =>
      if i < |w.net| {
        RefuseDrop(w.net, i);
      }
    case AtGate(p, s) =>
      if p in w.gates {
        OnlyOfflines(Expire(w.gates[p].gate, w.gates[p].clock, EXPIRE_BATCH).1);
        RefuseAppend(w.net, Sends(w.gates[p], s));
      }
    case _ =>
  }

  lemma {:induction false} CutRun(w: World, steps: seq<Step>)
    requires NobodyLetIn(w)
    requires forall i :: 0 <= i < |steps| ==> steps[i].Deliver? ==> !steps[i].reading.Whole?
    ensures NobodyLetIn(Run(w, steps))
    decreases |steps|
  {
    hide Next, NobodyLetIn;
    if steps != [] {
      CutStep(w, steps[0]);
      CutRun(Next(w, steps[0]), steps[1..]);
    }
  }

  // Where the gate's packets are too small for the key no login ever gets a good
  // verdict, whatever else happens.
  lemma {:induction false} CutAnswersNeverSucceed(reg: Reg, steps: seq<Step>)
    requires forall i :: 0 <= i < |steps| ==> steps[i].Deliver? ==> !steps[i].reading.Whole?
    ensures NobodyLetIn(Run(Start(reg), steps))
  {
    CutRun(Start(reg), steps);
  }
}
